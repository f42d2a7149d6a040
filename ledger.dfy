/**
 * The token-account records the ledger hands back, and the eligibility rules
 * that both the reclaim engine and the scan engine apply to them.
 */
module Ledger {
  import opened Wrappers

  /** A public key in its base58 text form. */
  type Address = string

  /** A decoded SPL token account (the fields the engines read). */
  datatype TokenAccount = TokenAccount(
    mint: Address,
    owner: Address,
    amount: nat,
    closeAuthority: Option<Address>)

  /** The native-account view returned by `getAccountInfo`. */
  datatype AccountInfo = AccountInfo(lamports: nat)

  /** What one ledger lookup produced: a value, or an exception. */
  datatype Lookup<+T> = Found(value: T) | Threw

  /**
   * One account listed by `getTokenAccountsByOwner`, together with what the
   * ledger answers for it: the decoded token account (or a decode/fetch
   * failure) and the account info (absent, present, or a failure). The info
   * is only consulted when the earlier rules have passed.
   */
  datatype Entry = Entry(
    pubkey: Address,
    account: Lookup<TokenAccount>,
    info: Lookup<Option<AccountInfo>>)

  /** Only an account holding no tokens can be closed. */
  predicate IsEmpty(acc: TokenAccount) {
    acc.amount == 0
  }

  /** A missing close authority defaults to the owner; otherwise it must be the operator. */
  predicate AuthorityAllows(acc: TokenAccount, operator: Address) {
    acc.closeAuthority.None? || acc.closeAuthority.value == operator
  }

  /** `info?.lamports ?? 0`: missing account info counts as zero lamports. */
  function InfoLamports(info: Option<AccountInfo>): nat {
    match info
    case None => 0
    case Some(i) => i.lamports
  }

  /** The account addresses of a sequence of entries, in enumeration order. */
  function Pubkeys(entries: seq<Entry>): (r: seq<Address>)
    ensures |r| == |entries|
    ensures forall i :: 0 <= i < |entries| ==> r[i] == entries[i].pubkey
  {
    if entries == [] then [] else Pubkeys(entries[..|entries| - 1]) + [entries[|entries| - 1].pubkey]
  }

  /** `a` can be obtained from `b` by deleting elements (order kept). */
  predicate IsSubsequence<T(==)>(a: seq<T>, b: seq<T>)
    decreases |b|
  {
    if a == [] then true
    else if b == [] then false
    else
      || (a[|a| - 1] == b[|b| - 1] && IsSubsequence(a[..|a| - 1], b[..|b| - 1]))
      || IsSubsequence(a, b[..|b| - 1])
  }
}
