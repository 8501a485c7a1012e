/**
 * The account and page-quota part of the backend: sign-up, the daily reset of the free tier, the
 * page check, the page deduction of a conversion and the profile update, over a users collection
 * keyed by `_id` and a documents collection. Times are whole seconds.
 */
module Server {
  import opened Wrappers
  import opened Text
  import opened Models
  import opened Statement

  const DailyFreePages := 7
  const Day := 24 * 3600
  const BillingPeriod := 30 * Day

  /** A stored user. `userIdField` is a `user_id` field, which no document created here carries. */
  datatype UserDoc = UserDoc(
    email: string,
    fullName: string,
    passwordHash: string,
    subscriptionTier: string,
    pagesRemaining: int,
    pagesLimit: int,
    billingCycleStart: Option<int>,
    dailyResetTime: Option<int>,
    languagePreference: Option<string>,
    createdAt: Option<int>,
    updatedAt: int,
    subscriptionStatus: Option<string>,
    userIdField: Option<string>)

  datatype UserResponse = UserResponse(
    id: string,
    email: string,
    fullName: string,
    subscriptionTier: string,
    pagesRemaining: int,
    pagesLimit: int,
    billingCycleStart: Option<int>,
    dailyResetTime: Option<int>,
    languagePreference: string)

  /** A conversion record. */
  datatype DocumentDoc = DocumentDoc(
    id: string,
    userId: string,
    originalFilename: string,
    fileSize: nat,
    pageCount: nat,
    pagesDeducted: nat,
    conversionDate: int,
    downloadCount: nat,
    status: string)

  datatype HttpError = HttpError(status: nat, detail: string)

  /** A `KeyError` or `TypeError` that escapes a handler. */
  const InternalError := HttpError(500, "Internal Server Error")

  function ResponseOf(id: string, u: UserDoc): UserResponse {
    UserResponse(id, u.email, u.fullName, u.subscriptionTier, u.pagesRemaining, u.pagesLimit,
      u.billingCycleStart, u.dailyResetTime, LanguageOrDefault(u.languagePreference))
  }

  /** No user has a negative number of pages left. */
  predicate QuotaInvariant(users: map<string, UserDoc>) {
    forall id :: id in users ==> users[id].pagesRemaining >= 0
  }

  // ---------------------------------------------------------------------------------------------
  // Sign-up

  predicate EmailTaken(users: map<string, UserDoc>, email: string) {
    exists id :: id in users && users[id].email == email
  }

  /** The document of a new user: the daily free tier with a full day of pages. */
  function NewUser(form: UserSignup, passwordHash: string, now: int): (u: UserDoc)
    ensures u.subscriptionTier == TierValue(DailyFree)
    ensures u.pagesRemaining == u.pagesLimit == DailyFreePages
    ensures u.dailyResetTime == Some(now) && u.billingCycleStart == Some(now)
    ensures u.email == form.email && u.fullName == form.fullName
  {
    UserDoc(form.email, form.fullName, passwordHash, TierValue(DailyFree), DailyFreePages, DailyFreePages,
      Some(now), Some(now), Some("en"), Some(now), now, None, None)
  }

  // ---------------------------------------------------------------------------------------------
  // The daily reset

  /** When the pages were last reset: the reset time, else the creation time, else now. */
  function LastReset(u: UserDoc, now: int): (r: int)
    ensures u.dailyResetTime.Some? ==> r == u.dailyResetTime.value
    ensures u.dailyResetTime.None? && u.createdAt.Some? ==> r == u.createdAt.value
    ensures u.dailyResetTime.None? && u.createdAt.None? ==> r == now
  {
    match u.dailyResetTime
    case Some(t) => t
    case None => u.createdAt.GetOr(now)
  }

  predicate ResetDue(u: UserDoc, now: int) {
    now - LastReset(u, now) >= Day
  }

  /**
   * `check_and_reset_daily_pages`: a free-tier user whose last reset is a day old or more gets
   * seven pages and a reset time of now; every other user and every other document stays as it is.
   */
  function DailyReset(users: map<string, UserDoc>, userId: string, now: int): (r: map<string, UserDoc>)
    ensures r.Keys == users.Keys
    ensures forall id :: id in users && id != userId ==> r[id] == users[id]
  {
    if userId !in users || users[userId].subscriptionTier != TierValue(DailyFree) then users
    else if ResetDue(users[userId], now) then
      users[userId := users[userId].(pagesRemaining := DailyFreePages, dailyResetTime := Some(now))]
    else users
  }

  /** What the reset does to the user it is asked about. */
  lemma DailyResetEffect(users: map<string, UserDoc>, userId: string, now: int)
    requires userId in users
    ensures var u, v := users[userId], DailyReset(users, userId, now)[userId];
      && (u.subscriptionTier != "daily_free" ==> v == u)
      && (u.subscriptionTier == "daily_free" && !ResetDue(u, now) ==> v == u)
      && (u.subscriptionTier == "daily_free" && ResetDue(u, now) ==>
            v.pagesRemaining == 7 && v.dailyResetTime == Some(now)
            && v == u.(pagesRemaining := 7, dailyResetTime := Some(now)))
  {
  }

  /** A user with no record of a reset or of creation is never reset: the fallback is now itself. */
  lemma NoTimesNoReset(users: map<string, UserDoc>, userId: string, now: int)
    requires userId in users && users[userId].dailyResetTime.None? && users[userId].createdAt.None?
    ensures DailyReset(users, userId, now) == users
  {
  }

  /** Resetting twice at the same moment is resetting once. */
  lemma DailyResetIdempotent(users: map<string, UserDoc>, userId: string, now: int)
    ensures DailyReset(DailyReset(users, userId, now), userId, now) == DailyReset(users, userId, now)
  {
    var r := DailyReset(users, userId, now);
    if userId in users && users[userId].subscriptionTier == TierValue(DailyFree) && ResetDue(users[userId], now) {
      assert r[userId].dailyResetTime == Some(now);
      assert !ResetDue(r[userId], now);
    }
  }

  lemma DailyResetKeepsQuota(users: map<string, UserDoc>, userId: string, now: int)
    requires QuotaInvariant(users)
    ensures QuotaInvariant(DailyReset(users, userId, now))
  {
  }

  // ---------------------------------------------------------------------------------------------
  // The page check

  datatype PagesCheckResponse = PagesCheckResponse(
    canConvert: bool,
    pagesRemaining: int,
    pagesLimit: int,
    resetDate: int,
    message: string)

  const DailyExhausted := "You've used all your daily pages. Upgrade to continue or wait for reset."
  const MonthlyExhausted := "You've used all your monthly pages. Upgrade your plan to continue."

  /**
   * The answer of `check_pages` once the reset has been applied. `hoursToReset` stands for the
   * hours the message quotes, which the source computes from the clock.
   */
  function PagesCheck(users: map<string, UserDoc>, userId: string, pageCount: int, now: int, hoursToReset: nat)
    : (r: Result<PagesCheckResponse, HttpError>)
    ensures userId !in users ==> r == Failure(HttpError(404, "User not found"))
    ensures r.Success? ==> (userId in users
      && r.value.pagesRemaining == users[userId].pagesRemaining && r.value.pagesLimit == users[userId].pagesLimit
      && (r.value.canConvert <==> users[userId].pagesRemaining >= pageCount))
    ensures r.Success? && !r.value.canConvert ==>
      r.value.message == (if users[userId].subscriptionTier == "daily_free" then DailyExhausted else MonthlyExhausted)
  {
    if userId !in users then Failure(HttpError(404, "User not found"))
    else
      var u := users[userId];
      var canConvert := u.pagesRemaining >= pageCount;
      if u.subscriptionTier == TierValue(DailyFree) then
        if u.dailyResetTime.None? then Failure(InternalError)
        else
          var message := if canConvert then
              "You have " + IntString(u.pagesRemaining) + " pages remaining today. Resets in "
              + DecimalString(hoursToReset) + " hours."
            else DailyExhausted;
          Success(PagesCheckResponse(canConvert, u.pagesRemaining, u.pagesLimit, u.dailyResetTime.value + Day, message))
      else
        var message := if canConvert then "You have " + IntString(u.pagesRemaining) + " pages remaining this month."
          else MonthlyExhausted;
        Success(PagesCheckResponse(canConvert, u.pagesRemaining, u.pagesLimit,
          u.billingCycleStart.GetOr(now) + BillingPeriod, message))
  }

  /** A free-tier user due for a reset may convert exactly up to seven pages, whatever was left before. */
  lemma CheckAfterDueReset(users: map<string, UserDoc>, userId: string, pageCount: int, now: int, hoursToReset: nat)
    requires userId in users && users[userId].subscriptionTier == "daily_free" && ResetDue(users[userId], now)
    ensures var r := PagesCheck(DailyReset(users, userId, now), userId, pageCount, now, hoursToReset);
      r.Success? && (r.value.canConvert <==> pageCount <= 7) && r.value.resetDate == now + Day
  {
  }

  /** A new user can convert up to seven pages. */
  lemma NewUserCheck(form: UserSignup, passwordHash: string, userId: string, now: int, pageCount: int, hoursToReset: nat)
    ensures var r := PagesCheck(map[userId := NewUser(form, passwordHash, now)], userId, pageCount, now, hoursToReset);
      r.Success? && r.value.pagesRemaining == 7 && r.value.pagesLimit == 7 && (r.value.canConvert <==> pageCount <= 7)
  {
  }

  // ---------------------------------------------------------------------------------------------
  // Conversion and page deduction

  /** `filename.lower().endswith('.pdf')`. */
  predicate HasPdfName(filename: string) {
    EndsWith(LowerStr(filename), ".pdf")
  }

  function InsufficientDetail(pageCount: nat, pagesRemaining: int): string {
    "Insufficient pages. You need " + DecimalString(pageCount) + " pages but only have "
    + IntString(pagesRemaining) + " remaining."
  }

  /** The message of an exception turned into a 500 by the handler's `except Exception`. */
  function FailedToProcess(message: string): string {
    "Failed to process PDF: " + message
  }

  /** `str()` of an `HTTPException`: its status, a colon and its detail. */
  function HttpExceptionText(e: HttpError): string {
    DecimalString(e.status) + ": " + e.detail
  }

  /** The text a refused quota check leaves in the 500 that wraps it. */
  lemma QuotaRefusalText(detail: string)
    ensures FailedToProcess(HttpExceptionText(HttpError(400, detail))) == "Failed to process PDF: 400: " + detail
  {
    assert DecimalString(4) == "4" && DecimalString(40) == "40" && DecimalString(400) == "400";
    assert "Failed to process PDF: " + ("400" + ": " + detail) == "Failed to process PDF: 400: " + detail;
  }

  /** The body of a successful conversion. */
  datatype ConversionResponse = ConversionResponse(success: bool, data: Record, pagesUsed: nat)

  /**
   * The outcome of `process_pdf_with_ai` as written. `pageCount` is the counted page number and
   * `extraction` the record the model returned or the message of its failure. The quota check
   * raises its 400 inside the `try`, whose `except Exception` turns it into a 500.
   */
  function ProcessPdfAsWritten(users: map<string, UserDoc>, userId: string, filename: string, apiKeyConfigured: bool,
                               pageCount: nat, extraction: Result<Record, string>): (r: Result<ConversionResponse, HttpError>)
    ensures !HasPdfName(filename) ==> r == Failure(HttpError(400, "Only PDF files are supported"))
    ensures r.Success? ==> (userId in users && users[userId].pagesRemaining >= pageCount && r.value.pagesUsed == pageCount
      && extraction.Success? && r.value.data == extraction.value)
    ensures HasPdfName(filename) && apiKeyConfigured && userId in users && users[userId].pagesRemaining < pageCount ==>
      r == Failure(HttpError(500, "Failed to process PDF: 400: " + InsufficientDetail(pageCount, users[userId].pagesRemaining)))
  {
    if !HasPdfName(filename) then Failure(HttpError(400, "Only PDF files are supported"))
    else if !apiKeyConfigured then Failure(HttpError(500, "Gemini API key not configured"))
    else if userId !in users then Failure(HttpError(500, FailedToProcess("'NoneType' object is not subscriptable")))
    else if users[userId].pagesRemaining < pageCount then
      QuotaRefusalText(InsufficientDetail(pageCount, users[userId].pagesRemaining));
      Failure(HttpError(500, FailedToProcess(HttpExceptionText(HttpError(400, InsufficientDetail(pageCount, users[userId].pagesRemaining))))))
    else if extraction.Failure? then Failure(HttpError(500, FailedToProcess(extraction.error)))
    else Success(ConversionResponse(true, extraction.value, pageCount))
  }

  /** The outcome with the quota refusal answered as the 400 it raises. */
  function ProcessPdf(users: map<string, UserDoc>, userId: string, filename: string, apiKeyConfigured: bool,
                      pageCount: nat, extraction: Result<Record, string>): (r: Result<ConversionResponse, HttpError>)
    ensures !HasPdfName(filename) ==> r == Failure(HttpError(400, "Only PDF files are supported"))
    ensures r.Success? ==> (userId in users && users[userId].pagesRemaining >= pageCount && r.value.pagesUsed == pageCount
      && extraction.Success? && r.value.data == extraction.value)
    ensures HasPdfName(filename) && apiKeyConfigured && userId in users && users[userId].pagesRemaining < pageCount ==>
      r == Failure(HttpError(400, InsufficientDetail(pageCount, users[userId].pagesRemaining)))
  {
    if !HasPdfName(filename) then Failure(HttpError(400, "Only PDF files are supported"))
    else if !apiKeyConfigured then Failure(HttpError(500, "Gemini API key not configured"))
    else if userId !in users then Failure(HttpError(500, FailedToProcess("'NoneType' object is not subscriptable")))
    else if users[userId].pagesRemaining < pageCount then
      Failure(HttpError(400, InsufficientDetail(pageCount, users[userId].pagesRemaining)))
    else if extraction.Failure? then Failure(HttpError(500, FailedToProcess(extraction.error)))
    else Success(ConversionResponse(true, extraction.value, pageCount))
  }

  /** As written, a user short of pages is answered 500, not the 400 the check raises. */
  lemma InsufficientPagesAnswered500(users: map<string, UserDoc>, userId: string, pageCount: nat, extraction: Result<Record, string>)
    requires userId in users && users[userId].pagesRemaining < pageCount
    ensures ProcessPdfAsWritten(users, userId, "statement.pdf", true, pageCount, extraction).Failure?
    ensures ProcessPdfAsWritten(users, userId, "statement.pdf", true, pageCount, extraction).error.status == 500
    ensures ProcessPdf(users, userId, "statement.pdf", true, pageCount, extraction).error.status == 400
  {
    assert LowerStr("statement.pdf") == "statement.pdf";
  }

  /** The two agree on every request but the one refused for lack of pages. */
  lemma ProcessPdfDiffersOnlyOnQuota(users: map<string, UserDoc>, userId: string, filename: string, apiKeyConfigured: bool,
                                     pageCount: nat, extraction: Result<Record, string>)
    requires !(HasPdfName(filename) && apiKeyConfigured && userId in users && users[userId].pagesRemaining < pageCount)
    ensures ProcessPdfAsWritten(users, userId, filename, apiKeyConfigured, pageCount, extraction)
      == ProcessPdf(users, userId, filename, apiKeyConfigured, pageCount, extraction)
  {
  }

  /** The file name test ignores case: `A.PDF` passes, and so does any name ending in `.pdf`. */
  lemma PdfNameIgnoresCase(stem: string)
    ensures HasPdfName("A.PDF")
    ensures HasPdfName(stem + ".pdf")
  {
    assert LowerStr("A.PDF") == "a.pdf";
    LowerStrAppend(stem, ".pdf");
    assert LowerStr(".pdf") == ".pdf";
  }

  /** The users after a successful conversion: the converting user has exactly `pageCount` fewer pages. */
  function Deducted(users: map<string, UserDoc>, userId: string, pageCount: nat): (r: map<string, UserDoc>)
    requires userId in users
    ensures r.Keys == users.Keys
    ensures r[userId].pagesRemaining == users[userId].pagesRemaining - pageCount
    ensures r[userId] == users[userId].(pagesRemaining := r[userId].pagesRemaining)
    ensures forall id :: id in users && id != userId ==> r[id] == users[id]
  {
    users[userId := users[userId].(pagesRemaining := users[userId].pagesRemaining - pageCount)]
  }

  /** A conversion that goes through never drives a user's pages below zero. */
  lemma DeductionKeepsQuota(users: map<string, UserDoc>, userId: string, filename: string, apiKeyConfigured: bool,
                            pageCount: nat, extraction: Result<Record, string>)
    requires QuotaInvariant(users)
    requires ProcessPdfAsWritten(users, userId, filename, apiKeyConfigured, pageCount, extraction).Success?
    ensures QuotaInvariant(Deducted(users, userId, pageCount))
  {
  }

  // ---------------------------------------------------------------------------------------------
  // Profile update

  /**
   * `update_profile`'s `$set`: each field of the form that is not `None` (an empty string
   * included), and the update time; nothing else changes.
   */
  function ApplyUpdate(u: UserDoc, updates: UserUpdate, now: int): (r: UserDoc)
    ensures r.fullName == (if updates.fullName.Some? then updates.fullName.value else u.fullName)
    ensures r.languagePreference == (if updates.languagePreference.Some? then updates.languagePreference else u.languagePreference)
    ensures r.updatedAt == now
    ensures r.(fullName := u.fullName, languagePreference := u.languagePreference, updatedAt := u.updatedAt) == u
  {
    var a := if updates.fullName.Some? then u.(fullName := updates.fullName.value) else u;
    var b := if updates.languagePreference.Some? then a.(languagePreference := updates.languagePreference) else a;
    b.(updatedAt := now)
  }

  /** An empty form only touches the update time, and applying a form twice is applying it once. */
  lemma ApplyUpdateLaws(u: UserDoc, updates: UserUpdate, now: int)
    ensures ApplyUpdate(u, UserUpdate(None, None), now) == u.(updatedAt := now)
    ensures ApplyUpdate(ApplyUpdate(u, updates, now), updates, now) == ApplyUpdate(u, updates, now)
    ensures ApplyUpdate(u, updates, now).pagesRemaining == u.pagesRemaining
      && ApplyUpdate(u, updates, now).subscriptionTier == u.subscriptionTier
  {
  }

  // ---------------------------------------------------------------------------------------------
  // The store

  /**
   * Fence stripping of the model's answer: after `strip()`, a `` ```json `` opening drops seven
   * characters at the front and three at the back, a bare `` ``` `` three and three, with Python's
   * slicing (an end before the start gives the empty string).
   */
  function StripFence(response: string): (r: string)
    ensures !StartsWith(PyStrip(response), "```") ==> r == PyStrip(response)
  {
    var t := PyStrip(response);
    if StartsWith(t, "```json") then PySliceToNegative(t, 7, 3)
    else if StartsWith(t, "```") then PySliceToNegative(t, 3, 3)
    else t
  }

  lemma PyStripKeeps(s: string)
    requires s != [] && !IsPySpace(s[0]) && !IsPySpace(s[|s| - 1])
    ensures PyStrip(s) == s
  {
  }

  /** A fenced body comes back exactly, whatever it holds, spaces and newlines included. */
  lemma StripFenceRoundTrip(body: string)
    ensures StripFence("```json" + body + "```") == body
    ensures !StartsWith(body, "json") ==> StripFence("```" + body + "```") == body
  {
    var f := "```json" + body + "```";
    PyStripKeeps(f);
    assert f[..7] == "```json";
    assert f[7..|f| - 3] == body;
    var g := "```" + body + "```";
    PyStripKeeps(g);
    assert g[..3] == "```";
    if !StartsWith(body, "json") {
      assert !StartsWith(g, "```json") by {
        if |body| >= 4 {
          assert forall i :: 0 <= i < 4 ==> g[..7][3 + i] == g[3 + i] == body[i];
          assert g[..7][3..7] == body[..4];
        } else if |g| >= 7 {
          assert g[..7][3 + |body|] == '`';
        }
      }
      assert g[3..|g| - 3] == body;
    }
  }

  /** An opening fence with nothing after it leaves nothing. */
  lemma StripFenceShort()
    ensures StripFence("```json") == "" && StripFence("```") == ""
  {
    StripFenceJsonAlone();
    StripFenceBareAlone();
  }

  lemma StripFenceJsonAlone()
    ensures StripFence("```json") == ""
  {
    var t := "```json";
    assert PyStrip(t) == t by { PyStripKeeps(t); }
    assert StartsWith(t, "```json") by { assert t[..7] == t; }
    assert PySliceToNegative(t, 7, 3) == "";
  }

  lemma StripFenceBareAlone()
    ensures StripFence("```") == ""
  {
    var u := "```";
    assert PyStrip(u) == u by { PyStripKeeps(u); }
    assert !StartsWith(u, "```json");
    assert StartsWith(u, "```") by { assert u[..3] == u; }
    assert PySliceToNegative(u, 3, 3) == "";
  }

  /** The users and documents collections, and the handlers that change them. */
  class Store {
    var users: map<string, UserDoc>
    var documents: seq<DocumentDoc>

    constructor ()
      ensures users == map[] && documents == []
    {
      users := map[];
      documents := [];
    }

    /**
     * `signup` for a validated form: a taken email is refused with 400 and nothing is stored;
     * otherwise the new user is stored under the fresh `userId`.
     */
    method Signup(form: UserSignup, userId: string, passwordHash: string, now: int) returns (r: Result<UserResponse, HttpError>)
      requires userId !in users
      modifies this
      ensures EmailTaken(old(users), form.email) ==> r == Failure(HttpError(400, "Email already registered")) && users == old(users)
      ensures !EmailTaken(old(users), form.email) ==>
        users == old(users)[userId := NewUser(form, passwordHash, now)] && r == Success(ResponseOf(userId, NewUser(form, passwordHash, now)))
      ensures documents == old(documents)
      ensures QuotaInvariant(old(users)) ==> QuotaInvariant(users)
    {
      if EmailTaken(users, form.email) {
        return Failure(HttpError(400, "Email already registered"));
      }
      var u := NewUser(form, passwordHash, now);
      users := users[userId := u];
      r := Success(ResponseOf(userId, u));
    }

    method ResetDailyPages(userId: string, now: int)
      modifies this
      ensures users == DailyReset(old(users), userId, now)
      ensures documents == old(documents)
    {
      if userId !in users || users[userId].subscriptionTier != TierValue(DailyFree) {
        return;
      }
      var lastReset := LastReset(users[userId], now);
      if now - lastReset >= Day {
        users := users[userId := users[userId].(pagesRemaining := DailyFreePages, dailyResetTime := Some(now))];
      }
    }

    /** `check_pages`: the reset of a free-tier user, then the answer on the new state. */
    method CheckPages(userId: string, pageCount: int, now: int, hoursToReset: nat) returns (r: Result<PagesCheckResponse, HttpError>)
      modifies this
      ensures users == DailyReset(old(users), userId, now)
      ensures r == PagesCheck(users, userId, pageCount, now, hoursToReset)
      ensures documents == old(documents)
    {
      if userId !in users {
        return Failure(HttpError(404, "User not found"));
      }
      if users[userId].subscriptionTier == TierValue(DailyFree) {
        ResetDailyPages(userId, now);
      }
      r := PagesCheck(users, userId, pageCount, now, hoursToReset);
    }

    /**
     * The page deduction of `process_pdf_with_ai` as written: on success the user's pages drop by
     * exactly the page count and one completed document is recorded; on any failure, the 500 for a
     * user short of pages included, nothing changes.
     */
    method ProcessPdfWithAi(userId: string, filename: string, fileSize: nat, apiKeyConfigured: bool, pageCount: nat,
                            extraction: Result<Record, string>, docId: string, now: int) returns (r: Result<ConversionResponse, HttpError>)
      modifies this
      ensures r == ProcessPdfAsWritten(old(users), userId, filename, apiKeyConfigured, pageCount, extraction)
      ensures r.Success? ==> (userId in old(users) && users == Deducted(old(users), userId, pageCount)
        && documents == old(documents) + [DocumentDoc(docId, userId, filename, fileSize, pageCount, pageCount, now, 0, "completed")])
      ensures r.Failure? ==> users == old(users) && documents == old(documents)
      ensures QuotaInvariant(old(users)) ==> QuotaInvariant(users)
    {
      r := ProcessPdfAsWritten(users, userId, filename, apiKeyConfigured, pageCount, extraction);
      if r.Success? {
        users := Deducted(users, userId, pageCount);
        documents := documents + [DocumentDoc(docId, userId, filename, fileSize, pageCount, pageCount, now, 0, "completed")];
      }
    }

    /** `update_profile`: the non-`None` fields and the update time are written; a missing user gives an error. */
    method UpdateProfile(userId: string, updates: UserUpdate, now: int) returns (r: Result<UserResponse, HttpError>)
      modifies this
      ensures userId in old(users) ==> (users == old(users)[userId := ApplyUpdate(old(users)[userId], updates, now)]
        && r == Success(ResponseOf(userId, users[userId])))
      ensures userId !in old(users) ==> users == old(users) && r == Failure(InternalError)
      ensures documents == old(documents)
      ensures QuotaInvariant(old(users)) ==> QuotaInvariant(users)
    {
      if userId !in users {
        return Failure(InternalError);
      }
      users := users[userId := ApplyUpdate(users[userId], updates, now)];
      r := Success(ResponseOf(userId, users[userId]));
    }
  }
}
