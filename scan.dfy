/**
 * The notifier's scan: the same eligibility rules as the reclaim engine plus
 * an optional allow-list of mints, applied in a fixed order, with a counter
 * for each reason an account is skipped and a summary of what could be
 * reclaimed. It never closes anything.
 */
module Scan {
  import opened Wrappers
  import opened Ledger
  import opened Ordering
  import AllowMints
  import Reclaim

  /** An account the scan reports as reclaimable. */
  datatype Reclaimable = Reclaimable(tokenAccount: Address, mint: Address, lamports: nat)

  /** Why an enumerated account is not reclaimable. */
  datatype SkipReason = NonEmpty | WrongAuthority | NotAllowedMint | BelowMinRent | ParseError

  /** What the scan concludes about one enumerated account. */
  datatype Verdict = Eligible(candidate: Reclaimable) | Skipped(reason: SkipReason)

  /** What `scanReclaimable` returns. */
  datatype ScanSummary = ScanSummary(
    scanned: nat,
    candidates: nat,
    totalLamports: nat,
    topLamports: nat,
    skippedNonEmpty: nat,
    skippedWrongAuthority: nat,
    skippedBelowMinRent: nat,
    skippedNotAllowedMint: nat,
    parseErrors: nat,
    examples: seq<Reclaimable>)

  /** The sort key of the ranking. */
  function Lamports(c: Reclaimable): nat {
    c.lamports
  }

  /** Without an allow-list every mint passes; with one, only its members do. */
  predicate MintAllowed(allowMints: Option<set<Address>>, mint: Address) {
    allowMints.None? || mint in allowMints.value
  }

  /**
   * One pass of the scan loop body. The rules run in the order non-empty,
   * wrong authority, mint not allowed, below minimum rent; the first rule
   * that fails decides, and a lookup that throws counts as a parse error.
   */
  function Classify(owner: Address, allowMints: Option<set<Address>>, minRent: int, e: Entry): (v: Verdict)
    ensures v == Skipped(NonEmpty) <==> e.account.Found? && !IsEmpty(e.account.value)
    ensures v == Skipped(WrongAuthority) <==>
      e.account.Found? && IsEmpty(e.account.value) && !AuthorityAllows(e.account.value, owner)
    ensures v == Skipped(NotAllowedMint) <==>
      && e.account.Found? && IsEmpty(e.account.value) && AuthorityAllows(e.account.value, owner)
      && !MintAllowed(allowMints, e.account.value.mint)
    ensures v == Skipped(BelowMinRent) <==>
      && e.account.Found? && IsEmpty(e.account.value) && AuthorityAllows(e.account.value, owner)
      && MintAllowed(allowMints, e.account.value.mint)
      && e.info.Found? && InfoLamports(e.info.value) < minRent
    ensures v == Skipped(ParseError) <==>
      || e.account.Threw?
      || (&& IsEmpty(e.account.value) && AuthorityAllows(e.account.value, owner)
          && MintAllowed(allowMints, e.account.value.mint) && e.info.Threw?)
    ensures v.Eligible? ==>
      && e.account.Found? && e.info.Found?
      && v.candidate == Reclaimable(e.pubkey, e.account.value.mint, InfoLamports(e.info.value))
      && v.candidate.lamports >= minRent
  {
    match e.account
    case Threw => Skipped(ParseError)
    case Found(acc) =>
      if !IsEmpty(acc) then Skipped(NonEmpty)
      else if !AuthorityAllows(acc, owner) then Skipped(WrongAuthority)
      else if !MintAllowed(allowMints, acc.mint) then Skipped(NotAllowedMint)
      else
        match e.info
        case Threw => Skipped(ParseError)
        case Found(info) =>
          var lamports := InfoLamports(info);
          if lamports < minRent then Skipped(BelowMinRent)
          else Eligible(Reclaimable(e.pubkey, acc.mint, lamports))
  }

  /** The reclaimable accounts among `entries`, in enumeration order. */
  function Eligibles(owner: Address, allowMints: Option<set<Address>>, minRent: int, entries: seq<Entry>): seq<Reclaimable> {
    if entries == [] then []
    else
      var init := Eligibles(owner, allowMints, minRent, entries[..|entries| - 1]);
      match Classify(owner, allowMints, minRent, entries[|entries| - 1])
      case Eligible(c) => init + [c]
      case Skipped(_) => init
  }

  /** How many of `entries` are skipped for `reason`. */
  function SkipCount(owner: Address, allowMints: Option<set<Address>>, minRent: int, entries: seq<Entry>, reason: SkipReason): nat {
    if entries == [] then 0
    else
      SkipCount(owner, allowMints, minRent, entries[..|entries| - 1], reason)
        + if Classify(owner, allowMints, minRent, entries[|entries| - 1]) == Skipped(reason) then 1 else 0
  }

  /** The summary a scan of `entries` produces. */
  function ScanResult(owner: Address, allowMintsEnv: Option<string>, minRent: int, entries: seq<Entry>): ScanSummary {
    var allowMints := AllowMints.ParseAllowMints(allowMintsEnv);
    var ranked := SortDesc(Eligibles(owner, allowMints, minRent, entries), Lamports);
    ScanSummary(
      |entries|,
      |ranked|,
      SumBy(ranked, Lamports),
      if ranked == [] then 0 else ranked[0].lamports,
      SkipCount(owner, allowMints, minRent, entries, NonEmpty),
      SkipCount(owner, allowMints, minRent, entries, WrongAuthority),
      SkipCount(owner, allowMints, minRent, entries, BelowMinRent),
      SkipCount(owner, allowMints, minRent, entries, NotAllowedMint),
      SkipCount(owner, allowMints, minRent, entries, ParseError),
      SliceTo(ranked, 3))
  }

  /**
   * `scanReclaimable`: one pass over the enumerated accounts updating the
   * five skip counters and the candidate list, then the ranking, the total,
   * the top value and the first three examples.
   */
  method ScanReclaimable(owner: Address, allowMintsEnv: Option<string>, minRent: int, entries: seq<Entry>)
    returns (s: ScanSummary)
    ensures s == ScanResult(owner, allowMintsEnv, minRent, entries)
  {
    var allowMints := AllowMints.ParseAllowMints(allowMintsEnv);
    var skippedNonEmpty, skippedWrongAuthority, skippedBelowMinRent, skippedNotAllowedMint, parseErrors := 0, 0, 0, 0, 0;
    var candidates: seq<Reclaimable> := [];

    for i := 0 to |entries|
      invariant candidates == Eligibles(owner, allowMints, minRent, entries[..i])
      invariant skippedNonEmpty == SkipCount(owner, allowMints, minRent, entries[..i], NonEmpty)
      invariant skippedWrongAuthority == SkipCount(owner, allowMints, minRent, entries[..i], WrongAuthority)
      invariant skippedBelowMinRent == SkipCount(owner, allowMints, minRent, entries[..i], BelowMinRent)
      invariant skippedNotAllowedMint == SkipCount(owner, allowMints, minRent, entries[..i], NotAllowedMint)
      invariant parseErrors == SkipCount(owner, allowMints, minRent, entries[..i], ParseError)
    {
      assert entries[..i + 1][..i] == entries[..i];
      var e := entries[i];
      match e.account {
        case Threw =>
          parseErrors := parseErrors + 1;
        case Found(acc) =>
          if acc.amount != 0 {
            skippedNonEmpty := skippedNonEmpty + 1;
          } else if !AuthorityAllows(acc, owner) {
            skippedWrongAuthority := skippedWrongAuthority + 1;
          } else if allowMints.Some? && acc.mint !in allowMints.value {
            skippedNotAllowedMint := skippedNotAllowedMint + 1;
          } else {
            match e.info {
              case Threw =>
                parseErrors := parseErrors + 1;
              case Found(info) =>
                var lamports := InfoLamports(info);
                if lamports < minRent {
                  skippedBelowMinRent := skippedBelowMinRent + 1;
                } else {
                  candidates := candidates + [Reclaimable(e.pubkey, acc.mint, lamports)];
                }
            }
          }
      }
    }
    assert entries[..|entries|] == entries;

    candidates := SortDesc(candidates, Lamports);
    var totalLamports := SumBy(candidates, Lamports);
    var topLamports := if |candidates| > 0 then candidates[0].lamports else 0;
    var examples := SliceTo(candidates, 3);
    s := ScanSummary(
      |entries|, |candidates|, totalLamports, topLamports,
      skippedNonEmpty, skippedWrongAuthority, skippedBelowMinRent, skippedNotAllowedMint, parseErrors,
      examples);
  }

  // ---------------------------------------------------------------------------
  // Properties of a scan
  // ---------------------------------------------------------------------------

  /** The five skip counts and the candidates together account for every entry. */
  lemma {:induction false} BucketsPartition(owner: Address, allowMints: Option<set<Address>>, minRent: int, entries: seq<Entry>)
    ensures |entries| == |Eligibles(owner, allowMints, minRent, entries)|
      + SkipCount(owner, allowMints, minRent, entries, NonEmpty)
      + SkipCount(owner, allowMints, minRent, entries, WrongAuthority)
      + SkipCount(owner, allowMints, minRent, entries, NotAllowedMint)
      + SkipCount(owner, allowMints, minRent, entries, BelowMinRent)
      + SkipCount(owner, allowMints, minRent, entries, ParseError)
  {
    if entries != [] {
      BucketsPartition(owner, allowMints, minRent, entries[..|entries| - 1]);
    }
  }

  /**
   * Every enumerated account lands in exactly one bucket:
   * `scanned = candidates + skippedNonEmpty + skippedWrongAuthority +
   * skippedNotAllowedMint + skippedBelowMinRent + parseErrors`.
   */
  lemma EveryAccountCountedOnce(owner: Address, allowMintsEnv: Option<string>, minRent: int, entries: seq<Entry>)
    ensures var s := ScanResult(owner, allowMintsEnv, minRent, entries);
      s.scanned == s.candidates + s.skippedNonEmpty + s.skippedWrongAuthority
        + s.skippedNotAllowedMint + s.skippedBelowMinRent + s.parseErrors
  {
    BucketsPartition(owner, AllowMints.ParseAllowMints(allowMintsEnv), minRent, entries);
  }

  lemma {:induction false} NoAllowListNoMintSkips(owner: Address, minRent: int, entries: seq<Entry>)
    ensures SkipCount(owner, None, minRent, entries, NotAllowedMint) == 0
  {
    if entries != [] {
      NoAllowListNoMintSkips(owner, minRent, entries[..|entries| - 1]);
    }
  }

  /** Every reclaimable account passes every rule, in particular the allow-list. */
  lemma {:induction false} EligiblesPassRules(owner: Address, allowMints: Option<set<Address>>, minRent: int, entries: seq<Entry>, c: Reclaimable)
    requires c in Eligibles(owner, allowMints, minRent, entries)
    ensures exists i :: 0 <= i < |entries| && Classify(owner, allowMints, minRent, entries[i]) == Eligible(c)
    ensures MintAllowed(allowMints, c.mint) && c.lamports >= minRent
  {
    var init := entries[..|entries| - 1];
    if c in Eligibles(owner, allowMints, minRent, init) {
      EligiblesPassRules(owner, allowMints, minRent, init, c);
      var i :| 0 <= i < |init| && Classify(owner, allowMints, minRent, init[i]) == Eligible(c);
      assert entries[i] == init[i];
    } else {
      assert Classify(owner, allowMints, minRent, entries[|entries| - 1]) == Eligible(c);
    }
  }

  /**
   * The allow-list: without one, no account is skipped for its mint; with
   * one, every reported account's mint is on it.
   */
  lemma AllowListRule(owner: Address, allowMintsEnv: Option<string>, minRent: int, entries: seq<Entry>)
    ensures var allowMints := AllowMints.ParseAllowMints(allowMintsEnv);
      && (allowMints.None? ==> ScanResult(owner, allowMintsEnv, minRent, entries).skippedNotAllowedMint == 0)
      && (allowMints.Some? ==> forall c :: c in Eligibles(owner, allowMints, minRent, entries) ==> c.mint in allowMints.value)
  {
    var allowMints := AllowMints.ParseAllowMints(allowMintsEnv);
    if allowMints.None? {
      NoAllowListNoMintSkips(owner, minRent, entries);
    } else {
      forall c | c in Eligibles(owner, allowMints, minRent, entries) ensures c.mint in allowMints.value {
        EligiblesPassRules(owner, allowMints, minRent, entries, c);
      }
    }
  }

  /**
   * The value fields: `totalLamports` is the sum over all reclaimable
   * accounts (whatever their order), `topLamports` is the largest of them (0
   * when there are none), and the total is at least the top value.
   */
  lemma TotalAndTop(owner: Address, allowMintsEnv: Option<string>, minRent: int, entries: seq<Entry>)
    ensures var s := ScanResult(owner, allowMintsEnv, minRent, entries);
      var found := Eligibles(owner, AllowMints.ParseAllowMints(allowMintsEnv), minRent, entries);
      && s.totalLamports == SumBy(found, Lamports)
      && (found == [] ==> s.topLamports == 0 && s.totalLamports == 0)
      && (found != [] ==> exists c :: c in found && c.lamports == s.topLamports)
      && (forall c :: c in found ==> c.lamports <= s.topLamports)
      && s.topLamports <= s.totalLamports
  {
    var found := Eligibles(owner, AllowMints.ParseAllowMints(allowMintsEnv), minRent, entries);
    var ranked := SortDesc(found, Lamports);
    SumBySortDesc(found, Lamports);
    forall c | c in found ensures c.lamports <= (if ranked == [] then 0 else ranked[0].lamports) {
      assert c in multiset(ranked);
      var k :| 0 <= k < |ranked| && ranked[k] == c;
      assert Lamports(ranked[0]) >= Lamports(ranked[k]);
    }
    if ranked != [] {
      SumByBoundsEach(ranked, Lamports, 0);
      assert ranked[0] in multiset(found);
    }
  }

  /**
   * The examples are the first `min(3, candidates)` accounts of the ranking,
   * highest rent first.
   */
  lemma ExamplesAreTopThree(owner: Address, allowMintsEnv: Option<string>, minRent: int, entries: seq<Entry>)
    ensures var s := ScanResult(owner, allowMintsEnv, minRent, entries);
      var ranked := SortDesc(Eligibles(owner, AllowMints.ParseAllowMints(allowMintsEnv), minRent, entries), Lamports);
      && |s.examples| == (if s.candidates < 3 then s.candidates else 3)
      && s.examples == ranked[..|s.examples|]
      && NonIncreasing(s.examples, Lamports)
      && forall i, j :: 0 <= i < |s.examples| <= j < |ranked| ==> ranked[i].lamports >= ranked[j].lamports
  {
    var ranked := SortDesc(Eligibles(owner, AllowMints.ParseAllowMints(allowMintsEnv), minRent, entries), Lamports);
    SliceToLength(ranked, 3);
    assert NonIncreasing(ranked, Lamports);
  }

  /** The reclaim engine's candidates, as the scan reports them. */
  function AsReclaimable(cs: seq<Reclaim.CloseCandidate>): (r: seq<Reclaimable>)
    ensures |r| == |cs|
  {
    if cs == [] then []
    else AsReclaimable(cs[..|cs| - 1]) + [Reclaimable(cs[|cs| - 1].tokenAccount, cs[|cs| - 1].mint, cs[|cs| - 1].lamports)]
  }

  /**
   * Without an allow-list the two engines agree: the scan reports exactly
   * the accounts the reclaim engine would discover, in the same order and
   * with the same rent.
   */
  lemma {:induction false} EnginesAgree(owner: Address, minRent: int, entries: seq<Entry>)
    ensures Eligibles(owner, None, minRent, entries) == AsReclaimable(Reclaim.EmptyAccounts(owner, minRent, entries))
  {
    if entries != [] {
      var init := entries[..|entries| - 1];
      EnginesAgree(owner, minRent, init);
      var before := Reclaim.EmptyAccounts(owner, minRent, init);
      match Reclaim.Discover(owner, minRent, entries[|entries| - 1])
      case None =>
      case Some(c) =>
        assert (before + [c])[..|before|] == before;
    }
  }
}
