/**
 * The parsed bank statement: account information and four transaction lists, amounts in cents.
 * A list the record does not carry is the empty list; every consumer treats the two alike.
 */
module Statement {
  import opened Wrappers

  datatype AccountInfo = AccountInfo(
    accountNumber: Option<string>,
    statementDate: Option<string>,
    beginningBalance: Option<int>,
    endingBalance: Option<int>)

  datatype Deposit = Deposit(dateCredited: string, description: string, amount: int)

  /** An ATM withdrawal or a card purchase: both carry a transaction date and a posting date. */
  datatype Debit = Debit(tranDate: string, datePosted: string, description: string, amount: int)

  datatype Check = Check(datePaid: string, checkNumber: string, amount: int, referenceNumber: string)

  datatype Record = Record(
    accountInfo: AccountInfo,
    deposits: seq<Deposit>,
    atmWithdrawals: seq<Debit>,
    checksPaid: seq<Check>,
    visaPurchases: seq<Debit>)

  const NoAccountInfo := AccountInfo(None, None, None, None)

  /** `x || fallback` on a string field: a missing or empty string gives the fallback. */
  function OrElse(x: Option<string>, fallback: string): (r: string)
    ensures x.Some? && x.value != "" ==> r == x.value
    ensures x.None? || x.value == "" ==> r == fallback
  {
    if x.Some? && x.value != "" then x.value else fallback
  }

  /** `x || 0` on an amount: a missing amount counts as zero. */
  function OrZero(x: Option<int>): (r: int)
    ensures x.Some? ==> r == x.value
    ensures x.None? ==> r == 0
  {
    if x.Some? then x.value else 0
  }

  /** The number of transactions over all four lists. */
  function TransactionCount(r: Record): nat {
    |r.deposits| + |r.atmWithdrawals| + |r.checksPaid| + |r.visaPurchases|
  }
}
