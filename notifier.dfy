/**
 * The notifier bot around the scan: the interval and threshold settings,
 * the alert rule of a watch tick, and the per-chat registry of watch timers.
 */
module Notifier {
  import opened Wrappers
  import opened JsNumbers
  import Scan
  import Ledger

  /**
   * `getDefaultIntervalSec`: `setting` is `Number` of
   * TELEGRAM_DEFAULT_INTERVAL_SEC (absent when unset, which reads as "60").
   * A finite positive setting is used; anything else falls back to 60.
   */
  function DefaultIntervalSec(setting: Option<Num>): (r: real)
    ensures r > 0.0
    ensures r == 60.0 || setting == Some(Finite(r))
    ensures setting.Some? && setting.value.Finite? && setting.value.value > 0.0 ==> r == setting.value.value
  {
    var v := if setting.None? then Finite(60.0) else setting.value;
    if v.Finite? && v.value > 0.0 then v.value else 60.0
  }

  /**
   * `getMinAlertLamports`: `setting` is `Number` of
   * TELEGRAM_MIN_ALERT_LAMPORTS (absent when unset, which reads as "0").
   * A finite non-negative setting is used; anything else falls back to 0.
   */
  function MinAlertLamports(setting: Option<Num>): (r: real)
    ensures r >= 0.0
    ensures r == 0.0 || setting == Some(Finite(r))
    ensures setting.Some? && setting.value.Finite? && setting.value.value >= 0.0 ==> r == setting.value.value
  {
    var v := if setting.None? then Finite(0.0) else setting.value;
    if v.Finite? && v.value >= 0.0 then v.value else 0.0
  }

  /**
   * The interval of `/watch [seconds]`: `argument` is `Number` of the word
   * after the command, and without one the default interval is used. A
   * finite request of at least 15 seconds is kept; anything else becomes 60.
   */
  function WatchIntervalSec(argument: Option<Num>, defaultSec: real): (r: real)
    ensures r >= 15.0
    ensures r == 60.0 || argument == Some(Finite(r)) || (argument.None? && r == defaultSec)
    ensures argument.Some? && argument.value.Finite? && argument.value.value >= 15.0 ==> r == argument.value.value
    ensures argument.None? && defaultSec >= 15.0 ==> r == defaultSec
  {
    var requested := if argument.None? then Finite(defaultSec) else argument.value;
    if requested.Finite? && requested.value >= 15.0 then requested.value else 60.0
  }

  /**
   * A bare `/watch` ignores a default interval shorter than 15 seconds:
   * it then watches every 60 seconds.
   */
  lemma BareWatchInterval(setting: Option<Num>)
    ensures var d := DefaultIntervalSec(setting);
      WatchIntervalSec(None, d) == if d >= 15.0 then d else 60.0
  {
  }

  /** A watch tick reports when something is reclaimable and the total reaches the threshold. */
  predicate ShouldAlert(s: Scan.ScanSummary, minAlert: real) {
    s.candidates > 0 && s.totalLamports as real >= minAlert
  }

  /**
   * For a summary produced by a scan, an alert always has accounts and
   * examples to show; and with a positive threshold the alert depends on
   * the total alone.
   */
  lemma AlertRule(owner: Ledger.Address, allowMintsEnv: Option<string>, minRent: int, entries: seq<Ledger.Entry>, minAlert: real)
    ensures var s := Scan.ScanResult(owner, allowMintsEnv, minRent, entries);
      && (ShouldAlert(s, minAlert) ==> s.totalLamports as real >= minAlert && 0 < |s.examples| <= s.candidates)
      && (minAlert > 0.0 ==> (ShouldAlert(s, minAlert) <==> s.totalLamports as real >= minAlert))
  {
    Scan.TotalAndTop(owner, allowMintsEnv, minRent, entries);
    Scan.ExamplesAreTopThree(owner, allowMintsEnv, minRent, entries);
  }

  /** A chat of the bot. */
  type ChatId = int

  /** The opaque handle `setInterval` returns for a periodic watch tick. */
  datatype TimerHandle = TimerHandle(id: nat)

  /** The timers a registry map holds. */
  ghost function Timers(m: map<ChatId, TimerHandle>): set<TimerHandle> {
    set c | c in m :: m[c]
  }

  /**
   * The `watchers` map: the watch timer of each chat. Beside it, the model
   * keeps every timer ever registered and the order in which timers were
   * cleared, so that it can say which timers are still running.
   */
  class WatchRegistry {
    var watchers: map<ChatId, TimerHandle>
    ghost var started: set<TimerHandle>
    ghost var cleared: seq<TimerHandle>

    /** Every registered timer is either some chat's entry or cleared, and no two chats share one. */
    ghost predicate Valid()
      reads this
    {
      && started == Timers(watchers) + (set t | t in cleared)
      && (forall t :: t in cleared ==> t !in Timers(watchers))
      && (forall a, b :: a in watchers && b in watchers && watchers[a] == watchers[b] ==> a == b)
    }

    /** The timers that were started and not cleared. */
    ghost function Running(): set<TimerHandle>
      reads this
    {
      started - (set t | t in cleared)
    }

    /** The running timers are exactly the registered ones: one per watched chat, never two. */
    lemma RunningAreRegistered()
      requires Valid()
      ensures Running() == Timers(watchers)
      ensures forall a, b :: a in watchers && b in watchers && a != b ==> watchers[a] != watchers[b]
    {
    }

    constructor ()
      ensures Valid() && watchers == map[] && started == {} && cleared == []
    {
      watchers := map[];
      started := {};
      cleared := [];
    }

    /** The registry without `chat`'s timer, after that timer was cleared. */
    method Remove(chat: ChatId)
      requires Valid() && chat in watchers
      modifies this
      ensures Valid()
      ensures watchers == old(watchers) - {chat}
      ensures cleared == old(cleared) + [old(watchers)[chat]]
      ensures started == old(started)
    {
      var t := watchers[chat];
      cleared := cleared + [t];
      watchers := watchers - {chat};
      assert forall c :: c in watchers ==> watchers[c] != t;
      assert Timers(old(watchers)) == Timers(watchers) + {t} by {
        forall u | u in Timers(old(watchers)) ensures u in Timers(watchers) + {t} {
          var c :| c in old(watchers) && old(watchers)[c] == u;
          if c != chat {
            assert watchers[c] == u;
          }
        }
      }
    }

    /** `/stop`: clears and removes the chat's timer, and says whether there was one. */
    method Stop(chat: ChatId) returns (wasWatching: bool)
      requires Valid()
      modifies this
      ensures Valid()
      ensures wasWatching == (chat in old(watchers))
      ensures watchers == old(watchers) - {chat}
      ensures cleared == old(cleared) + if wasWatching then [old(watchers)[chat]] else []
      ensures started == old(started)
    {
      wasWatching := chat in watchers;
      if wasWatching {
        Remove(chat);
      }
    }

    /**
     * `/watch`: clears and removes the chat's timer if it has one. Then, when
     * the confirmation reply and the first tick both return (`repliesDone`),
     * it registers the newly started `timer` as the chat's only entry; when
     * one of their replies throws, the handler stops there and the chat is
     * left without a timer.
     */
    method Watch(chat: ChatId, timer: TimerHandle, repliesDone: bool)
      requires Valid() && timer !in started
      modifies this
      ensures Valid()
      ensures repliesDone ==> watchers == old(watchers)[chat := timer] && started == old(started) + {timer}
      ensures !repliesDone ==> watchers == old(watchers) - {chat} && started == old(started)
      ensures cleared == old(cleared) + if chat in old(watchers) then [old(watchers)[chat]] else []
    {
      if chat in watchers {
        Remove(chat);
      }
      if !repliesDone {
        return;
      }
      assert chat !in watchers;
      ghost var before := watchers;
      watchers := watchers[chat := timer];
      started := started + {timer};
      assert Timers(watchers) == Timers(before) + {timer} by {
        forall u | u in Timers(watchers) ensures u in Timers(before) + {timer} {
          var c :| c in watchers && watchers[c] == u;
          if c != chat {
            assert before[c] == u;
          }
        }
        assert watchers[chat] == timer;
        forall u | u in Timers(before) ensures u in Timers(watchers) {
          var c :| c in before && before[c] == u;
          assert watchers[c] == u;
        }
      }
    }
  }
}
