/**
 * The reclaim engine: discover the operator's empty token accounts that it
 * may close, rank them by rent (lamports), cut a batch of at most
 * `maxClosePerRun`, and either only report them (dry run) or submit one
 * close transaction per account, stopping at the first failure.
 */
module Reclaim {
  import opened Wrappers
  import opened Ledger
  import opened Ordering

  /** An account the engine may close, with the rent closing it returns. */
  datatype CloseCandidate = CloseCandidate(
    tokenAccount: Address,
    mint: Address,
    owner: Address,
    lamports: nat)

  /** What one run reports to its caller. */
  datatype ReclaimReport = ReclaimReport(
    scanned: nat,
    candidates: nat,
    planned: nat,
    closed: nat,
    signatures: seq<string>)

  /** The configuration values a run reads. */
  datatype Settings = Settings(
    dryRun: bool,
    useKora: bool,
    minRentLamports: int,
    maxClosePerRun: int)

  /** What a transaction sender produces: a signature, or the error it threw. */
  datatype SendResult = Sent(signature: string) | SendFailed(message: string)

  /** The sort key of the ranking. */
  function Lamports(c: CloseCandidate): nat {
    c.lamports
  }

  /** The token accounts of a sequence of candidates, in order. */
  function Accounts(cs: seq<CloseCandidate>): (r: seq<Address>)
    ensures |r| == |cs|
    ensures forall i :: 0 <= i < |cs| ==> r[i] == cs[i].tokenAccount
  {
    if cs == [] then [] else Accounts(cs[..|cs| - 1]) + [cs[|cs| - 1].tokenAccount]
  }

  // ---------------------------------------------------------------------------
  // Discovery
  // ---------------------------------------------------------------------------

  /**
   * One pass of the discovery loop body: the candidate an enumerated account
   * yields, if any. A failed lookup yields none, like the `catch` that logs
   * and moves on.
   */
  function Discover(operator: Address, minRent: int, e: Entry): (r: Option<CloseCandidate>)
    ensures r.Some? <==>
      && e.account.Found?
      && IsEmpty(e.account.value)
      && AuthorityAllows(e.account.value, operator)
      && e.info.Found?
      && InfoLamports(e.info.value) >= minRent
    ensures r.Some? ==>
      r.value == CloseCandidate(e.pubkey, e.account.value.mint, e.account.value.owner, InfoLamports(e.info.value))
  {
    match e.account
    case Threw => None
    case Found(acc) =>
      if !IsEmpty(acc) then None
      else if !AuthorityAllows(acc, operator) then None
      else
        match e.info
        case Threw => None
        case Found(info) =>
          var lamports := InfoLamports(info);
          if lamports < minRent then None
          else Some(CloseCandidate(e.pubkey, acc.mint, acc.owner, lamports))
  }

  /** The candidates discovered from `entries`, in enumeration order. */
  function EmptyAccounts(operator: Address, minRent: int, entries: seq<Entry>): (r: seq<CloseCandidate>)
    ensures |r| <= |entries|
  {
    if entries == [] then []
    else
      var init := EmptyAccounts(operator, minRent, entries[..|entries| - 1]);
      match Discover(operator, minRent, entries[|entries| - 1])
      case None => init
      case Some(c) => init + [c]
  }

  /** `findEmptyTokenAccounts`: visits every enumerated account and keeps the eligible ones. */
  method FindEmptyTokenAccounts(operator: Address, minRent: int, entries: seq<Entry>)
    returns (out: seq<CloseCandidate>)
    ensures out == EmptyAccounts(operator, minRent, entries)
  {
    out := [];
    for i := 0 to |entries|
      invariant out == EmptyAccounts(operator, minRent, entries[..i])
    {
      assert entries[..i + 1][..i] == entries[..i];
      var found := Discover(operator, minRent, entries[i]);
      if found.Some? {
        out := out + [found.value];
      }
    }
    assert entries[..|entries|] == entries;
  }

  lemma {:induction false} EmptyAccountsAppend(operator: Address, minRent: int, a: seq<Entry>, b: seq<Entry>)
    ensures EmptyAccounts(operator, minRent, a + b)
         == EmptyAccounts(operator, minRent, a) + EmptyAccounts(operator, minRent, b)
    decreases |b|
  {
    if b == [] {
      assert a + b == a;
    } else {
      var b' := b[..|b| - 1];
      assert (a + b)[..|a + b| - 1] == a + b';
      assert (a + b)[|a + b| - 1] == b[|b| - 1];
      EmptyAccountsAppend(operator, minRent, a, b');
    }
  }

  /**
   * Exactly the entries that pass every rule become candidates: every
   * candidate comes from such an entry, and every such entry yields one.
   */
  lemma {:induction false} EmptyAccountsMembers(operator: Address, minRent: int, entries: seq<Entry>, c: CloseCandidate)
    ensures c in EmptyAccounts(operator, minRent, entries)
        <==> exists i :: 0 <= i < |entries| && Discover(operator, minRent, entries[i]) == Some(c)
  {
    if entries != [] {
      var init := entries[..|entries| - 1];
      EmptyAccountsMembers(operator, minRent, init, c);
      if c in EmptyAccounts(operator, minRent, entries) {
        if c !in EmptyAccounts(operator, minRent, init) {
          assert Discover(operator, minRent, entries[|entries| - 1]) == Some(c);
        } else {
          var i :| 0 <= i < |init| && Discover(operator, minRent, init[i]) == Some(c);
          assert entries[i] == init[i];
        }
      } else {
        forall i | 0 <= i < |entries|
          ensures Discover(operator, minRent, entries[i]) != Some(c)
        {
          if i < |init| {
            assert entries[i] == init[i];
          }
        }
      }
    }
  }

  /**
   * An enumerated account that yields no candidate, such as one whose fetch
   * or decode threw, is skipped without disturbing the rest of discovery.
   */
  lemma SkippedEntryChangesNothing(operator: Address, minRent: int, a: seq<Entry>, e: Entry, b: seq<Entry>)
    requires Discover(operator, minRent, e).None?
    ensures EmptyAccounts(operator, minRent, a + [e] + b) == EmptyAccounts(operator, minRent, a + b)
  {
    EmptyAccountsAppend(operator, minRent, a + [e], b);
    EmptyAccountsAppend(operator, minRent, a, [e]);
    EmptyAccountsAppend(operator, minRent, a, b);
    assert [e][..0] == [];
  }

  lemma SubsequenceExtend<T>(a: seq<T>, b: seq<T>, y: T)
    requires IsSubsequence(a, b)
    ensures IsSubsequence(a, b + [y])
  {
    assert (b + [y])[..|b + [y]| - 1] == b;
  }

  lemma SubsequenceMatch<T>(a: seq<T>, b: seq<T>, y: T)
    requires IsSubsequence(a, b)
    ensures IsSubsequence(a + [y], b + [y])
  {
    assert (a + [y])[..|a + [y]| - 1] == a;
    assert (b + [y])[..|b + [y]| - 1] == b;
  }

  /** Candidates are listed in enumeration order: a subsequence of the enumerated accounts. */
  lemma {:induction false} DiscoveryKeepsOrder(operator: Address, minRent: int, entries: seq<Entry>)
    ensures IsSubsequence(Accounts(EmptyAccounts(operator, minRent, entries)), Pubkeys(entries))
  {
    if entries != [] {
      var init := entries[..|entries| - 1];
      var last := entries[|entries| - 1];
      DiscoveryKeepsOrder(operator, minRent, init);
      var before := EmptyAccounts(operator, minRent, init);
      match Discover(operator, minRent, last)
      case None =>
        SubsequenceExtend(Accounts(before), Pubkeys(init), last.pubkey);
      case Some(c) =>
        assert (before + [c])[..|before|] == before;
        SubsequenceMatch(Accounts(before), Pubkeys(init), last.pubkey);
    }
  }

  // ---------------------------------------------------------------------------
  // Ranking and batching
  // ---------------------------------------------------------------------------

  /** The discovered candidates, highest rent first. */
  function Ranked(operator: Address, cfg: Settings, entries: seq<Entry>): seq<CloseCandidate> {
    SortDesc(EmptyAccounts(operator, cfg.minRentLamports, entries), Lamports)
  }

  /** The batch a run works on: `candidates.slice(0, maxClosePerRun)`. */
  function Picked(operator: Address, cfg: Settings, entries: seq<Entry>): seq<CloseCandidate> {
    SliceTo(Ranked(operator, cfg, entries), cfg.maxClosePerRun)
  }

  /**
   * The ranking is a stable permutation of the discovered candidates with
   * rent never increasing: candidates with equal rent keep discovery order.
   */
  lemma RankingIsStablePermutation(operator: Address, cfg: Settings, entries: seq<Entry>, v: nat)
    ensures multiset(Ranked(operator, cfg, entries)) == multiset(EmptyAccounts(operator, cfg.minRentLamports, entries))
    ensures NonIncreasing(Ranked(operator, cfg, entries), Lamports)
    ensures WithKey(Ranked(operator, cfg, entries), Lamports, v)
         == WithKey(EmptyAccounts(operator, cfg.minRentLamports, entries), Lamports, v)
  {
    SortDescStable(EmptyAccounts(operator, cfg.minRentLamports, entries), Lamports, v);
  }

  /**
   * The batch is a prefix of the ranking, of length `min(maxClosePerRun,
   * candidates)` when the cap is not negative, and no candidate left out of
   * the batch is worth more than one in it.
   */
  lemma PickedIsMostValuablePrefix(operator: Address, cfg: Settings, entries: seq<Entry>)
    ensures var ranked, picked := Ranked(operator, cfg, entries), Picked(operator, cfg, entries);
      && picked == ranked[..|picked|]
      && (cfg.maxClosePerRun >= 0 ==>
            |picked| == if cfg.maxClosePerRun < |ranked| then cfg.maxClosePerRun else |ranked|)
      && forall i, j :: 0 <= i < |picked| <= j < |ranked| ==> ranked[i].lamports >= ranked[j].lamports
  {
    var ranked := Ranked(operator, cfg, entries);
    if cfg.maxClosePerRun >= 0 {
      SliceToLength(ranked, cfg.maxClosePerRun);
    }
    assert NonIncreasing(ranked, Lamports);
  }

  // ---------------------------------------------------------------------------
  // Submission
  // ---------------------------------------------------------------------------

  /**
   * The message `sendTransactionViaKora` throws, character for character:
   * its apostrophe is stored as the three characters U+00E2 U+20AC U+2122
   * (a UTF-8 right single quote decoded as Windows-1252).
   */
  const KoraNotWired := "Kora send not wired yet. Set USE_KORA=0 for now, or we\U{00E2}\U{20AC}\U{2122}ll add @solana/kora in Phase 3."

  /** `sendTransactionViaKora`: the sponsor-relay path is a placeholder that always fails. */
  function SendViaKora(): (r: SendResult)
    ensures r.SendFailed?
  {
    SendFailed(KoraNotWired)
  }

  /**
   * The ledger cluster behind the connection, as far as closing goes: it
   * answers each close transaction with a signature or an error, and
   * remembers which accounts it was asked to close.
   */
  class Cluster {
    /** The answer (after signing, submission and confirmation) to closing an account. */
    const answer: Address -> SendResult
    /** The accounts whose close transaction was submitted, in order. */
    var submitted: seq<Address>

    constructor (answer: Address -> SendResult)
      ensures this.answer == answer && submitted == []
    {
      this.answer := answer;
      submitted := [];
    }

    /** `sendTransactionDirect` with a close instruction for `account`. */
    method SendDirect(account: Address) returns (r: SendResult)
      modifies this
      ensures submitted == old(submitted) + [account]
      ensures r == answer(account)
    {
      submitted := submitted + [account];
      r := answer(account);
    }
  }

  /** The sender's answer for one candidate, through the configured path. */
  function Outcome(useKora: bool, answer: Address -> SendResult, c: CloseCandidate): SendResult {
    if useKora then SendViaKora() else answer(c.tokenAccount)
  }

  /**
   * Closing `picked` one after the other: the signatures in order, or the
   * first failure, after which nothing further is sent.
   */
  function Submit(picked: seq<CloseCandidate>, useKora: bool, answer: Address -> SendResult): Result<seq<string>, string> {
    if picked == [] then Ok([])
    else
      match Submit(picked[..|picked| - 1], useKora, answer)
      case Err(e) => Err(e)
      case Ok(sigs) =>
        match Outcome(useKora, answer, picked[|picked| - 1])
        case Sent(sig) => Ok(sigs + [sig])
        case SendFailed(e) => Err(e)
  }

  /** The accounts whose close transaction reaches the cluster while submitting `picked`. */
  function Attempts(picked: seq<CloseCandidate>, useKora: bool, answer: Address -> SendResult): seq<Address> {
    if picked == [] || useKora then []
    else
      var init := picked[..|picked| - 1];
      if Submit(init, useKora, answer).Err? then Attempts(init, useKora, answer)
      else Attempts(init, useKora, answer) + [picked[|picked| - 1].tokenAccount]
  }

  /** Submitting one more candidate after an accepted prefix. */
  lemma SubmitStep(picked: seq<CloseCandidate>, i: nat, useKora: bool, answer: Address -> SendResult)
    requires i < |picked| && Submit(picked[..i], useKora, answer).Ok?
    ensures Submit(picked[..i + 1], useKora, answer)
         == match Outcome(useKora, answer, picked[i])
            case Sent(sig) => Ok(Submit(picked[..i], useKora, answer).value + [sig])
            case SendFailed(e) => Err(e)
    ensures Attempts(picked[..i + 1], useKora, answer)
         == Attempts(picked[..i], useKora, answer) + if useKora then [] else [picked[i].tokenAccount]
  {
    assert picked[..i + 1][..i] == picked[..i];
  }

  /** Once a prefix of the batch has failed, the rest of the batch changes nothing. */
  lemma {:induction false} SubmitFailureIsFinal(picked: seq<CloseCandidate>, i: nat, useKora: bool, answer: Address -> SendResult)
    requires i <= |picked| && Submit(picked[..i], useKora, answer).Err?
    ensures Submit(picked, useKora, answer) == Submit(picked[..i], useKora, answer)
    ensures Attempts(picked, useKora, answer) == Attempts(picked[..i], useKora, answer)
    decreases |picked| - i
  {
    if i < |picked| {
      var init := picked[..|picked| - 1];
      assert init[..i] == picked[..i];
      SubmitFailureIsFinal(init, i, useKora, answer);
    } else {
      assert picked[..i] == picked;
    }
  }

  /**
   * Submission succeeds exactly when every candidate is accepted; then the
   * signatures are the senders' answers, one per candidate, in batch order,
   * and (on the direct path) every candidate was submitted once, in order.
   */
  lemma {:induction false} SubmitSucceeds(picked: seq<CloseCandidate>, useKora: bool, answer: Address -> SendResult)
    ensures Submit(picked, useKora, answer).Ok?
        <==> forall i :: 0 <= i < |picked| ==> Outcome(useKora, answer, picked[i]).Sent?
    ensures Submit(picked, useKora, answer).Ok? ==>
      var sigs := Submit(picked, useKora, answer).value;
      && |sigs| == |picked|
      && (forall i :: 0 <= i < |picked| ==> Outcome(useKora, answer, picked[i]) == Sent(sigs[i]))
      && Attempts(picked, useKora, answer) == if useKora then [] else Accounts(picked)
  {
    if picked != [] {
      var init := picked[..|picked| - 1];
      SubmitSucceeds(init, useKora, answer);
      assert forall i :: 0 <= i < |init| ==> init[i] == picked[i];
      if Submit(picked, useKora, answer).Ok? {
        assert Accounts(picked)[..|init|] == Accounts(init);
      }
    }
  }

  /**
   * Candidate `k` is the first of `picked` that the sender rejects, with
   * `message`, and only the candidates up to `k` reach the cluster.
   */
  predicate FailsFirstAt(picked: seq<CloseCandidate>, useKora: bool, answer: Address -> SendResult, k: nat, message: string) {
    && k < |picked|
    && Outcome(useKora, answer, picked[k]) == SendFailed(message)
    && (forall j :: 0 <= j < k ==> Outcome(useKora, answer, picked[j]).Sent?)
    && Attempts(picked, useKora, answer) == if useKora then [] else Accounts(picked[..k + 1])
  }

  /**
   * Submission fails with the message of the first rejected candidate; every
   * earlier candidate was accepted, and no later one is sent.
   */
  lemma {:induction false} SubmitStopsAtFirstFailure(picked: seq<CloseCandidate>, useKora: bool, answer: Address -> SendResult)
    requires Submit(picked, useKora, answer).Err?
    ensures exists k :: FailsFirstAt(picked, useKora, answer, k, Submit(picked, useKora, answer).error)
  {
    var init := picked[..|picked| - 1];
    var message := Submit(picked, useKora, answer).error;
    if Submit(init, useKora, answer).Err? {
      SubmitStopsAtFirstFailure(init, useKora, answer);
      var k :| FailsFirstAt(init, useKora, answer, k, message);
      FailsFirstAtExtend(picked, useKora, answer, k, message);
    } else {
      FailsAtLast(picked, useKora, answer);
    }
  }

  /** A failure already in the prefix stays the first failure of the whole batch. */
  lemma FailsFirstAtExtend(picked: seq<CloseCandidate>, useKora: bool, answer: Address -> SendResult, k: nat, message: string)
    requires picked != [] && Submit(picked[..|picked| - 1], useKora, answer).Err?
    requires FailsFirstAt(picked[..|picked| - 1], useKora, answer, k, message)
    ensures FailsFirstAt(picked, useKora, answer, k, message)
  {
    var init := picked[..|picked| - 1];
    assert init[..k + 1] == picked[..k + 1];
    assert forall j :: 0 <= j <= k ==> init[j] == picked[j];
  }

  /** When every candidate but the last is accepted and the batch fails, the last one is the first failure. */
  lemma FailsAtLast(picked: seq<CloseCandidate>, useKora: bool, answer: Address -> SendResult)
    requires picked != [] && Submit(picked[..|picked| - 1], useKora, answer).Ok?
    requires Submit(picked, useKora, answer).Err?
    ensures FailsFirstAt(picked, useKora, answer, |picked| - 1, Submit(picked, useKora, answer).error)
  {
    var init := picked[..|picked| - 1];
    SubmitSucceeds(init, useKora, answer);
    assert forall j :: 0 <= j < |init| ==> init[j] == picked[j];
    assert picked[..|picked|] == picked;
    assert Accounts(picked)[..|init|] == Accounts(init);
  }

  // ---------------------------------------------------------------------------
  // A run
  // ---------------------------------------------------------------------------

  /** The outcome of one run: its report, or the error that aborted it. */
  function RunResult(operator: Address, cfg: Settings, entries: seq<Entry>, answer: Address -> SendResult)
    : Result<ReclaimReport, string>
  {
    var ranked := Ranked(operator, cfg, entries);
    var picked := Picked(operator, cfg, entries);
    if cfg.dryRun then Ok(ReclaimReport(|ranked|, |ranked|, |picked|, 0, []))
    else
      match Submit(picked, cfg.useKora, answer)
      case Ok(sigs) => Ok(ReclaimReport(|ranked|, |ranked|, |picked|, |sigs|, sigs))
      case Err(e) => Err(e)
  }

  /** The accounts one run submits to the cluster. */
  function RunAttempts(operator: Address, cfg: Settings, entries: seq<Entry>, answer: Address -> SendResult): seq<Address> {
    if cfg.dryRun then [] else Attempts(Picked(operator, cfg, entries), cfg.useKora, answer)
  }

  /** `runReclaimer`: discover, rank, cut the batch, then report or close it. */
  method RunReclaimer(operator: Address, cfg: Settings, entries: seq<Entry>, cluster: Cluster)
    returns (r: Result<ReclaimReport, string>)
    modifies cluster
    ensures r == RunResult(operator, cfg, entries, cluster.answer)
    ensures cluster.submitted == old(cluster.submitted) + RunAttempts(operator, cfg, entries, cluster.answer)
  {
    var candidates := FindEmptyTokenAccounts(operator, cfg.minRentLamports, entries);
    candidates := SortDesc(candidates, Lamports);
    var picked := SliceTo(candidates, cfg.maxClosePerRun);
    var report := ReclaimReport(|candidates|, |candidates|, |picked|, 0, []);
    r := ExecuteBatch(picked, cfg.dryRun, cfg.useKora, cluster, report);
  }

  /**
   * The closing loop of `runReclaimer`: in a dry run it only walks the batch;
   * otherwise it sends one close per candidate, counting each success and
   * keeping its signature, and lets the first failure escape.
   */
  method ExecuteBatch(picked: seq<CloseCandidate>, dryRun: bool, useKora: bool, cluster: Cluster, report: ReclaimReport)
    returns (r: Result<ReclaimReport, string>)
    requires report.closed == 0 && report.signatures == []
    modifies cluster
    ensures dryRun ==> r == Ok(report) && cluster.submitted == old(cluster.submitted)
    ensures !dryRun ==>
      && r == (match Submit(picked, useKora, cluster.answer)
               case Ok(sigs) => Ok(report.(closed := |sigs|, signatures := sigs))
               case Err(e) => Err(e))
      && cluster.submitted == old(cluster.submitted) + Attempts(picked, useKora, cluster.answer)
  {
    var current := report;
    for i := 0 to |picked|
      invariant current == report.(closed := current.closed, signatures := current.signatures)
      invariant dryRun ==> current == report && cluster.submitted == old(cluster.submitted)
      invariant !dryRun ==>
        && Submit(picked[..i], useKora, cluster.answer) == Ok(current.signatures)
        && current.closed == |current.signatures|
        && cluster.submitted == old(cluster.submitted) + Attempts(picked[..i], useKora, cluster.answer)
    {
      if dryRun {
        continue;
      }
      SubmitStep(picked, i, useKora, cluster.answer);
      var sent: SendResult;
      if useKora {
        sent := SendViaKora();
      } else {
        sent := cluster.SendDirect(picked[i].tokenAccount);
      }
      match sent
      case SendFailed(message) =>
        SubmitFailureIsFinal(picked, i + 1, useKora, cluster.answer);
        return Err(message);
      case Sent(signature) =>
        current := current.(closed := current.closed + 1, signatures := current.signatures + [signature]);
    }
    assert picked[..|picked|] == picked;
    r := Ok(current);
  }

  // ---------------------------------------------------------------------------
  // Properties of a run
  // ---------------------------------------------------------------------------

  /**
   * The report's counts: `scanned` and `candidates` are both the number of
   * discovered candidates, `planned` is the batch size, and at most the
   * batch is closed, each closure with its signature.
   */
  lemma ReportCounts(operator: Address, cfg: Settings, entries: seq<Entry>, answer: Address -> SendResult)
    requires RunResult(operator, cfg, entries, answer).Ok?
    ensures var report := RunResult(operator, cfg, entries, answer).value;
      && report.scanned == report.candidates == |EmptyAccounts(operator, cfg.minRentLamports, entries)|
      && report.planned == |Picked(operator, cfg, entries)|
      && report.closed == |report.signatures| <= report.planned
  {
    if !cfg.dryRun {
      SubmitSucceeds(Picked(operator, cfg, entries), cfg.useKora, answer);
    }
  }

  /** A dry run succeeds, plans the batch, closes nothing and sends nothing. */
  lemma DryRunClosesNothing(operator: Address, cfg: Settings, entries: seq<Entry>, answer: Address -> SendResult)
    requires cfg.dryRun
    ensures RunResult(operator, cfg, entries, answer).Ok?
    ensures var report := RunResult(operator, cfg, entries, answer).value;
      report.closed == 0 && report.signatures == [] && report.planned == |Picked(operator, cfg, entries)|
    ensures RunAttempts(operator, cfg, entries, answer) == []
  {
  }

  /**
   * A live run that returns a report closed the whole batch: one signature
   * per picked candidate, in ranking order, and every one of them submitted.
   */
  lemma LiveRunClosesBatch(operator: Address, cfg: Settings, entries: seq<Entry>, answer: Address -> SendResult)
    requires !cfg.dryRun && RunResult(operator, cfg, entries, answer).Ok?
    ensures var report, picked := RunResult(operator, cfg, entries, answer).value, Picked(operator, cfg, entries);
      && report.closed == report.planned == |report.signatures|
      && (forall i :: 0 <= i < |picked| ==> Outcome(cfg.useKora, answer, picked[i]) == Sent(report.signatures[i]))
      && RunAttempts(operator, cfg, entries, answer) == if cfg.useKora then [] else Accounts(picked)
  {
    SubmitSucceeds(Picked(operator, cfg, entries), cfg.useKora, answer);
  }

  /**
   * A live run in which some candidate of the batch is rejected fails as a
   * whole with the first rejection's message, and no later candidate is sent.
   */
  lemma LiveRunAbortsOnFailure(operator: Address, cfg: Settings, entries: seq<Entry>, answer: Address -> SendResult, k: nat)
    requires !cfg.dryRun
    requires var picked := Picked(operator, cfg, entries);
      && k < |picked|
      && Outcome(cfg.useKora, answer, picked[k]).SendFailed?
      && forall j :: 0 <= j < k ==> Outcome(cfg.useKora, answer, picked[j]).Sent?
    ensures var picked := Picked(operator, cfg, entries);
      && RunResult(operator, cfg, entries, answer) == Err(Outcome(cfg.useKora, answer, picked[k]).message)
      && RunAttempts(operator, cfg, entries, answer) == if cfg.useKora then [] else Accounts(picked[..k + 1])
  {
    var picked := Picked(operator, cfg, entries);
    SubmitSucceeds(picked, cfg.useKora, answer);
    SubmitStopsAtFirstFailure(picked, cfg.useKora, answer);
    var k' :| FailsFirstAt(picked, cfg.useKora, answer, k', Submit(picked, cfg.useKora, answer).error);
    assert k' == k;
  }

  /** With the Kora sender, a live run with anything to close always fails, before any submission. */
  lemma KoraRunAlwaysFails(operator: Address, cfg: Settings, entries: seq<Entry>, answer: Address -> SendResult)
    requires !cfg.dryRun && cfg.useKora && |Picked(operator, cfg, entries)| > 0
    ensures RunResult(operator, cfg, entries, answer) == Err(KoraNotWired)
    ensures RunAttempts(operator, cfg, entries, answer) == []
  {
    LiveRunAbortsOnFailure(operator, cfg, entries, answer, 0);
  }
}
