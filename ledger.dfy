/**
 * The cooldown ledger: a key -> last-sent-instant map plus a "changed" flag, the
 * check-and-set gate that deduplicates alerts, and the twice-daily status digest.
 */
module AlertMemory {
  import opened Wrappers
  import opened Settings
  import Text

  /** A value snapshot of the ledger: the recorded instants and whether this pass changed them. */
  datatype LedgerState = LedgerState(entries: map<string, int>, dirty: bool)

  /**
   * The ledger at process start: the stored mapping when it could be read, otherwise
   * empty (a missing or unreadable file is not an error); nothing changed yet.
   */
  function Initial(stored: Option<map<string, int>>): (st: LedgerState)
    ensures !st.dirty
    ensures stored.Some? ==> st.entries == stored.value
    ensures stored.None? ==> st.entries == map[]
  {
    LedgerState(if stored.Some? then stored.value else map[], false)
  }

  datatype GateOutcome = GateOutcome(sent: bool, after: LedgerState)

  /** The check-and-set gate: may the alert `key` be sent at instant `now`? */
  function Gate(st: LedgerState, key: string, now: int): (g: GateOutcome)
    ensures g.sent <==> key !in st.entries || now - st.entries[key] >= Cooldown
    ensures !g.sent ==> g.after == st
    ensures g.after.dirty == (st.dirty || g.sent)
    ensures g.sent ==> g.after.entries == st.entries[key := now]
    ensures forall k :: k in st.entries && k != key ==> k in g.after.entries && g.after.entries[k] == st.entries[k]
    ensures forall k :: k in g.after.entries && k != key ==> k in st.entries
  {
    if key in st.entries && now - st.entries[key] < Cooldown then GateOutcome(false, st)
    else GateOutcome(true, LedgerState(st.entries[key := now], true))
  }

  /** A key never sent before is sent at once. */
  lemma GateFiresWhenAbsent(st: LedgerState, key: string, now: int)
    requires key !in st.entries
    ensures Gate(st, key, now).sent
    ensures Gate(st, key, now).after == LedgerState(st.entries[key := now], true)
  {
  }

  /** Inside the cooldown the gate refuses and changes nothing, not even the flag. */
  lemma GateBlocksWithinCooldown(st: LedgerState, key: string, now: int)
    requires key in st.entries && now - st.entries[key] < Cooldown
    ensures !Gate(st, key, now).sent
    ensures Gate(st, key, now).after == st
  {
  }

  /** Once the cooldown has elapsed the key fires again and only its instant is overwritten. */
  lemma GateFiresAfterCooldown(st: LedgerState, key: string, now: int)
    requires key in st.entries && now - st.entries[key] >= Cooldown
    ensures Gate(st, key, now).sent
    ensures Gate(st, key, now).after.entries == st.entries[key := now]
    ensures Gate(st, key, now).after.entries.Keys == st.entries.Keys
  {
  }

  /** A second request for the same key within the cooldown of a sent one is suppressed. */
  lemma GateSuppressesRepeat(st: LedgerState, key: string, now: int, later: int)
    requires Gate(st, key, now).sent
    requires later - now < Cooldown
    ensures !Gate(Gate(st, key, now).after, key, later).sent
  {
  }

  /** The same key asked twice at the same instant: the second answer is always "no". */
  lemma GateTwiceSameInstant(st: LedgerState, key: string, now: int)
    ensures !Gate(Gate(st, key, now).after, key, now).sent
    ensures key !in st.entries ==> Gate(st, key, now).sent
  {
  }

  /** After the cooldown has passed since a send, the key is accepted again. */
  lemma GateReopens(st: LedgerState, key: string, now: int, later: int)
    requires Gate(st, key, now).sent
    requires later >= now + Cooldown
    ensures Gate(Gate(st, key, now).after, key, later).sent
  {
  }

  /** The local time as the digest reads it: instant, calendar date text, weekday (0 = Monday) and hour. */
  datatype Clock = Clock(instant: int, date: string, weekday: nat, hour: nat)

  /** The content of the status digest: whether the market is closed, and how many tickers are watched. */
  datatype DigestNote = DigestNote(marketClosed: bool, watching: nat)

  datatype DigestOutcome = DigestOutcome(note: Option<DigestNote>, after: LedgerState)

  /** The synthetic ledger key of the digest for one date and hour: `RESUMO_<date>_<hour>`. */
  function DigestKey(date: string, hour: nat): (k: string)
    ensures |k| > 8 && k[..7] == "RESUMO_"
    ensures Text.IsDigit(k[|k| - 1])
  {
    var h := Text.DecimalText(hour);
    var k := "RESUMO_" + date + "_" + h;
    assert k[|k| - 1] == h[|h| - 1];
    k
  }

  /**
   * Different (date, hour) slots have different digest keys: the hour text holds no
   * underscore, so the last underscore of a key separates the date from the hour.
   */
  lemma DigestKeyInjective(d1: string, h1: nat, d2: string, h2: nat)
    requires DigestKey(d1, h1) == DigestKey(d2, h2)
    ensures d1 == d2 && h1 == h2
  {
    var t1, t2 := Text.DecimalText(h1), Text.DecimalText(h2);
    Text.SplitBeforeDigits("RESUMO_" + d1, t1, "RESUMO_" + d2, t2);
    assert d1 == ("RESUMO_" + d1)[7..];
    assert d2 == ("RESUMO_" + d2)[7..];
    Text.DecimalTextInjective(h1, h2);
  }

  /** At a digest hour, send the digest once per (date, hour) and record its key. */
  function Digest(st: LedgerState, clock: Clock): (d: DigestOutcome)
    ensures d.note.Some? ==> d.note.value.marketClosed == (clock.weekday > 4)
    ensures d.note.Some? ==> d.note.value.watching == |Watchlist|
    ensures d.note.Some? <==> clock.hour in DigestHours && DigestKey(clock.date, clock.hour) !in st.entries
    ensures d.note.Some? ==> d.after == LedgerState(st.entries[DigestKey(clock.date, clock.hour) := clock.instant], true)
    ensures d.note.None? ==> d.after == st
  {
    if clock.hour in DigestHours then
      var key := DigestKey(clock.date, clock.hour);
      if key !in st.entries then
        DigestOutcome(Some(DigestNote(clock.weekday > 4, |Watchlist|)),
                      LedgerState(st.entries[key := clock.instant], true))
      else DigestOutcome(None, st)
    else DigestOutcome(None, st)
  }

  /** Asking for the digest again with the same date and hour does nothing. */
  lemma DigestOncePerSlot(st: LedgerState, clock: Clock, again: Clock)
    requires again.date == clock.date && again.hour == clock.hour
    ensures Digest(Digest(st, clock).after, again).note.None?
    ensures Digest(Digest(st, clock).after, again).after == Digest(st, clock).after
  {
  }

  /**
   * Slots are independent: the digest of one (date, hour) never blocks the digest of another,
   * so the 09h digest leaves the 18h digest of the same day free to fire.
   */
  lemma DigestSlotsIndependent(st: LedgerState, first: Clock, second: Clock)
    requires first.date != second.date || first.hour != second.hour
    requires second.hour in DigestHours
    requires DigestKey(second.date, second.hour) !in st.entries
    ensures Digest(Digest(st, first).after, second).note.Some?
  {
    if DigestKey(first.date, first.hour) == DigestKey(second.date, second.hour) {
      DigestKeyInjective(first.date, first.hour, second.date, second.hour);
    }
  }

  /** The 09h and 18h digests of one date both fire on a ledger that holds neither. */
  lemma MorningDigestDoesNotBlockEvening(st: LedgerState, morning: Clock, evening: Clock)
    requires morning.hour == 9 && evening.hour == 18 && morning.date == evening.date
    requires DigestKey(morning.date, 9) !in st.entries && DigestKey(evening.date, 18) !in st.entries
    ensures Digest(st, morning).note.Some?
    ensures Digest(Digest(st, morning).after, evening).note.Some?
  {
    DigestSlotsIndependent(st, morning, evening);
  }

  /** Outside 09h and 18h the digest never fires, whatever the ledger holds. */
  lemma DigestOnlyAtDigestHours(st: LedgerState, clock: Clock)
    requires clock.hour != 9 && clock.hour != 18
    ensures Digest(st, clock) == DigestOutcome(None, st)
  {
  }

  /**
   * The ledger as the running bot holds it: the map is updated in place and the flag
   * records whether it must be written back at the end of the pass.
   */
  class Ledger {
    var entries: map<string, int>
    var dirty: bool

    function State(): LedgerState
      reads this
    {
      LedgerState(entries, dirty)
    }

    /** Loading at start-up: the stored mapping, or empty when there is none. */
    constructor (stored: Option<map<string, int>>)
      ensures State() == Initial(stored)
    {
      entries := if stored.Some? then stored.value else map[];
      dirty := false;
    }

    /** Check-and-set: answer whether `key` may be sent at `now`, and if so record `now` under it. */
    method MaySend(key: string, now: int) returns (sent: bool)
      modifies this
      ensures sent == Gate(old(State()), key, now).sent
      ensures State() == Gate(old(State()), key, now).after
    {
      if key in entries {
        var last := entries[key];
        if now - last < Cooldown {
          return false;
        }
      }
      entries := entries[key := now];
      dirty := true;
      return true;
    }

    /** The daily digest check, run once at the start of every pass. */
    method CheckDailyDigest(clock: Clock) returns (note: Option<DigestNote>)
      modifies this
      ensures note == Digest(old(State()), clock).note
      ensures State() == Digest(old(State()), clock).after
    {
      note := None;
      if clock.hour in DigestHours {
        var key := DigestKey(clock.date, clock.hour);
        if key !in entries {
          var closed := clock.weekday > 4;
          note := Some(DigestNote(closed, |Watchlist|));
          entries := entries[key := clock.instant];
          dirty := true;
        }
      }
    }
  }
}
