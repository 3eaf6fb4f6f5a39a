/**
 * One pass of the bot: load the ledger, check the digest, evaluate every ticker of the
 * watchlist in order (weekend skip, history bound, classification, ledger gate), and
 * write the ledger back only if the pass changed it.
 */
module Cycle {
  import opened Wrappers
  import opened Settings
  import opened Signal
  import opened AlertMemory
  import Text

  /** A ticker is traded around the clock when its symbol contains "-USD". */
  function IsCrypto(ticker: string): (r: bool)
    ensures r <==> Text.Occurs(ticker, "-USD")
  {
    Text.Contains(ticker, "-USD")
  }

  /** On Saturday and Sunday (weekday 5 and 6) only round-the-clock tickers are evaluated. */
  function SkippedOnWeekend(ticker: string, weekday: nat): (r: bool)
    ensures r <==> weekday >= 5 && !Text.Occurs(ticker, "-USD")
  {
    weekday >= 5 && !IsCrypto(ticker)
  }

  /**
   * What the market-data side delivered for one ticker: nothing usable (empty download,
   * conversion failure or any other error), or the count of valid closing prices with the
   * latest price, the latest band values and the latest oscillator value.
   */
  datatype Fetch =
    | Unavailable
    | Fetched(points: nat, price: real, upper: real, lower: real, rsi: Oscillator)

  /**
   * The inputs of one ticker's evaluation: the weekday read when it starts, what was
   * fetched, and the instant at which the ledger gate reads the clock.
   */
  datatype TickerInput = TickerInput(weekday: nat, fetch: Fetch, now: int)

  /** An alert that was sent. */
  datatype Alert = Alert(ticker: string, category: Category, note: RsiNote)
  {
    function Key(): string { AlertKey(ticker, category) }
  }

  /** The alert a ticker would raise before the ledger is consulted, if any. */
  function Candidate(ticker: string, input: TickerInput): (a: Option<Alert>)
    ensures a.Some? ==> a.value.ticker == ticker
    ensures a.Some? ==> !SkippedOnWeekend(ticker, input.weekday)
    ensures a.Some? ==> input.fetch.Fetched? && input.fetch.points >= MinHistory
    ensures a.Some? ==> var f := input.fetch;
              Classify(f.price, f.upper, f.lower) == Some(a.value.category) && a.value.note == NoteFor(f.rsi)
    ensures (!SkippedOnWeekend(ticker, input.weekday) && input.fetch.Fetched? && input.fetch.points >= MinHistory
             && Classify(input.fetch.price, input.fetch.upper, input.fetch.lower).Some?) ==> a.Some?
  {
    if SkippedOnWeekend(ticker, input.weekday) then None
    else match input.fetch
      case Unavailable => None
      case Fetched(points, price, upper, lower, rsi) =>
        if points < MinHistory then None
        else match Classify(price, upper, lower)
          case None => None
          case Some(c) => Some(Alert(ticker, c, NoteFor(rsi)))
  }

  /** The digest's synthetic keys and the alert keys live side by side in one ledger without clashing. */
  lemma DigestKeyNeverAlertKey(date: string, hour: nat, ticker: string, c: Category)
    ensures DigestKey(date, hour) != AlertKey(ticker, c)
  {
    AlertKeyLastChar(ticker, c);
  }

  datatype StepOutcome = StepOutcome(sent: Option<Alert>, after: LedgerState)

  /** One ticker's evaluation: the gate is consulted only when a category fired. */
  function TickerStep(st: LedgerState, ticker: string, input: TickerInput): (s: StepOutcome)
    ensures Candidate(ticker, input).None? ==> s == StepOutcome(None, st)
    ensures s.sent.Some? ==> Candidate(ticker, input) == s.sent
    ensures s.sent.Some? ==> s.after == Gate(st, s.sent.value.Key(), input.now).after
    ensures s.sent.None? ==> s.after == st
    ensures Candidate(ticker, input).Some? ==>
              var g := Gate(st, Candidate(ticker, input).value.Key(), input.now);
              (s.sent.Some? <==> g.sent) && s.after == g.after
  {
    match Candidate(ticker, input)
    case None => StepOutcome(None, st)
    case Some(a) =>
      var g := Gate(st, a.Key(), input.now);
      StepOutcome(if g.sent then Some(a) else None, g.after)
  }

  /** A skipped weekend ticker leaves the ledger and its flag exactly as they were. */
  lemma WeekendSkipLeavesLedger(st: LedgerState, ticker: string, input: TickerInput)
    requires SkippedOnWeekend(ticker, input.weekday)
    ensures TickerStep(st, ticker, input) == StepOutcome(None, st)
  {
  }

  /** A critical-sell price sends a critical-sell alert when its key is not cooling down. */
  lemma CriticalSellIsSent(st: LedgerState, ticker: string, input: TickerInput)
    requires !SkippedOnWeekend(ticker, input.weekday)
    requires input.fetch.Fetched? && input.fetch.points >= MinHistory
    requires input.fetch.price >= CriticalUpper(input.fetch.upper)
    requires AlertKey(ticker, SellCritical) !in st.entries
    ensures TickerStep(st, ticker, input).sent == Some(Alert(ticker, SellCritical, NoteFor(input.fetch.rsi)))
  {
  }

  datatype PassOutcome = PassOutcome(alerts: seq<Alert>, after: LedgerState)

  /** The loop over `tickers`, one step after the other, collecting the alerts sent. */
  function Pass(st: LedgerState, tickers: seq<string>, feed: seq<TickerInput>): (p: PassOutcome)
    requires |tickers| == |feed|
    ensures |p.alerts| <= |tickers|
    ensures st.dirty ==> p.after.dirty
    decreases |tickers|
  {
    if tickers == [] then PassOutcome([], st)
    else
      var n := |tickers| - 1;
      var prev := Pass(st, tickers[..n], feed[..n]);
      var step := TickerStep(prev.after, tickers[n], feed[n]);
      PassOutcome(prev.alerts + ToSeq(step.sent), step.after)
  }

  /** The flag is set after the pass exactly when it was set before or some alert was sent. */
  lemma {:induction false} PassDirtyIffSent(st: LedgerState, tickers: seq<string>, feed: seq<TickerInput>)
    requires |tickers| == |feed|
    ensures Pass(st, tickers, feed).after.dirty == (st.dirty || |Pass(st, tickers, feed).alerts| > 0)
    decreases |tickers|
  {
    if tickers != [] {
      var n := |tickers| - 1;
      PassDirtyIffSent(st, tickers[..n], feed[..n]);
    }
  }

  /** A pass that sends nothing leaves the ledger untouched. */
  lemma {:induction false} SilentPassLeavesLedger(st: LedgerState, tickers: seq<string>, feed: seq<TickerInput>)
    requires |tickers| == |feed|
    requires |Pass(st, tickers, feed).alerts| == 0
    ensures Pass(st, tickers, feed).after == st
    decreases |tickers|
  {
    if tickers != [] {
      var n := |tickers| - 1;
      SilentPassLeavesLedger(st, tickers[..n], feed[..n]);
    }
  }

  /**
   * The pass only records sent alerts: keys already present stay present, and every key
   * whose entry is new or changed belongs to an alert sent during the pass.
   */
  lemma {:induction false} PassOnlyRecordsSentAlerts(st: LedgerState, tickers: seq<string>, feed: seq<TickerInput>)
    requires |tickers| == |feed|
    ensures var p := Pass(st, tickers, feed);
      && st.entries.Keys <= p.after.entries.Keys
      && (forall k :: k in p.after.entries && (k !in st.entries || p.after.entries[k] != st.entries[k])
            ==> exists a :: a in p.alerts && a.Key() == k)
      && (forall a :: a in p.alerts ==> a.Key() in p.after.entries)
      && (forall a :: a in p.alerts ==> a.ticker in tickers)
    decreases |tickers|
  {
    if tickers != [] {
      var n := |tickers| - 1;
      var prev := Pass(st, tickers[..n], feed[..n]);
      PassOnlyRecordsSentAlerts(st, tickers[..n], feed[..n]);
      var step := TickerStep(prev.after, tickers[n], feed[n]);
      var p := Pass(st, tickers, feed);
      assert p.alerts == prev.alerts + ToSeq(step.sent);
      assert forall t :: t in tickers[..n] ==> t in tickers;
      forall k | k in p.after.entries && (k !in st.entries || p.after.entries[k] != st.entries[k])
        ensures exists a :: a in p.alerts && a.Key() == k
      {
        if k in prev.after.entries && p.after.entries[k] == prev.after.entries[k] {
          var a :| a in prev.alerts && a.Key() == k;
          assert a in p.alerts;
        } else {
          assert step.sent.Some? && step.sent.value.Key() == k;
          assert step.sent.value in p.alerts;
        }
      }
    }
  }

  /** No symbol appears twice in `tickers`. */
  predicate Distinct(tickers: seq<string>)
  {
    forall i, j :: 0 <= i < j < |tickers| ==> tickers[i] != tickers[j]
  }

  /**
   * The positions in `tickers` whose evaluation sent an alert, in order: each evaluation sends
   * at most one message, so the alerts of a pass line up with strictly increasing positions.
   */
  function SentPositions(st: LedgerState, tickers: seq<string>, feed: seq<TickerInput>): (pos: seq<nat>)
    requires |tickers| == |feed|
    ensures |pos| == |Pass(st, tickers, feed).alerts|
    ensures forall i :: 0 <= i < |pos| ==>
              pos[i] < |tickers| && Pass(st, tickers, feed).alerts[i].ticker == tickers[pos[i]]
    ensures forall i, j :: 0 <= i < j < |pos| ==> pos[i] < pos[j]
    decreases |tickers|
  {
    if tickers == [] then []
    else
      var n := |tickers| - 1;
      var prev := Pass(st, tickers[..n], feed[..n]);
      var step := TickerStep(prev.after, tickers[n], feed[n]);
      var before := SentPositions(st, tickers[..n], feed[..n]);
      assert Pass(st, tickers, feed).alerts == prev.alerts + ToSeq(step.sent);
      assert forall i :: 0 <= i < |before| ==> tickers[before[i]] == tickers[..n][before[i]];
      before + (if step.sent.Some? then [n] else [])
  }

  /** Over distinct tickers, no two alerts sent in a pass are for the same ticker. */
  lemma PassOneAlertPerTicker(st: LedgerState, tickers: seq<string>, feed: seq<TickerInput>)
    requires |tickers| == |feed|
    requires Distinct(tickers)
    ensures var p := Pass(st, tickers, feed);
      forall i, j :: 0 <= i < j < |p.alerts| ==> p.alerts[i].ticker != p.alerts[j].ticker
  {
    var pos := SentPositions(st, tickers, feed);
  }

  /** All instants at which the gate is consulted lie in `[lo, lo + Cooldown)`. */
  ghost predicate WithinOneCooldown(feed: seq<TickerInput>, lo: int)
  {
    forall i :: 0 <= i < |feed| ==> lo <= feed[i].now < lo + Cooldown
  }

  /**
   * Within a pass shorter than the cooldown, no alert key is sent twice: duplicate
   * alerts in one run are suppressed by the ledger.
   */
  lemma {:induction false} NoRepeatWithinCooldown(st: LedgerState, tickers: seq<string>, feed: seq<TickerInput>, lo: int)
    requires |tickers| == |feed|
    requires WithinOneCooldown(feed, lo)
    ensures var p := Pass(st, tickers, feed);
      forall i, j :: 0 <= i < j < |p.alerts| ==> p.alerts[i].Key() != p.alerts[j].Key()
    ensures var p := Pass(st, tickers, feed);
      forall a :: a in p.alerts ==> a.Key() in p.after.entries && lo <= p.after.entries[a.Key()] < lo + Cooldown
    decreases |tickers|
  {
    if tickers != [] {
      var n := |tickers| - 1;
      assert WithinOneCooldown(feed[..n], lo);
      NoRepeatWithinCooldown(st, tickers[..n], feed[..n], lo);
      var prev := Pass(st, tickers[..n], feed[..n]);
      var step := TickerStep(prev.after, tickers[n], feed[n]);
      var p := Pass(st, tickers, feed);
      assert p.alerts == prev.alerts + ToSeq(step.sent);
      if step.sent.Some? {
        var a := step.sent.value;
        assert lo <= feed[n].now < lo + Cooldown;
        assert Gate(prev.after, a.Key(), feed[n].now).sent;
        assert a.Key() in prev.after.entries ==> feed[n].now - prev.after.entries[a.Key()] >= Cooldown;
        forall b | b in prev.alerts ensures b.Key() != a.Key() { }
        forall i, j | 0 <= i < j < |p.alerts| ensures p.alerts[i].Key() != p.alerts[j].Key() {
          if j == |prev.alerts| {
            assert p.alerts[i] in prev.alerts;
          }
        }
      }
    }
  }

  /** On a weekend pass every alert sent is for a round-the-clock ticker. */
  lemma {:induction false} WeekendPassOnlyCrypto(st: LedgerState, tickers: seq<string>, feed: seq<TickerInput>)
    requires |tickers| == |feed|
    requires forall i :: 0 <= i < |feed| ==> feed[i].weekday >= 5
    ensures forall a :: a in Pass(st, tickers, feed).alerts ==> IsCrypto(a.ticker)
    decreases |tickers|
  {
    if tickers != [] {
      var n := |tickers| - 1;
      WeekendPassOnlyCrypto(st, tickers[..n], feed[..n]);
    }
  }

  /** No Brazilian symbol contains a dash. */
  lemma BrazilDashFree()
    ensures forall w :: w in BrazilTickers ==> '-' !in w
  {
  }

  /** No US symbol contains a dash. */
  lemma UsDashFree()
    ensures forall w :: w in UsTickers ==> '-' !in w
  {
  }

  /** Of the watchlist only the last symbol, "BTC-USD", is traded around the clock. */
  lemma WatchlistCrypto()
    ensures forall i :: 0 <= i < |Watchlist| ==> (IsCrypto(Watchlist[i]) <==> Watchlist[i] == "BTC-USD")
  {
    var exchange := BrazilTickers + UsTickers;
    assert Watchlist == exchange + CryptoTickers;
    BrazilDashFree();
    UsDashFree();
    forall i | 0 <= i < |exchange| ensures !IsCrypto(Watchlist[i]) && Watchlist[i] != "BTC-USD" {
      assert Watchlist[i] == exchange[i] && exchange[i] in exchange;
      assert '-' !in Watchlist[i] && '-' in "BTC-USD";
      Text.AbsentFirstCharNotContained(Watchlist[i], "-USD");
    }
    var last := |exchange|;
    assert Watchlist[last] == "BTC-USD";
    assert Text.OccursAt(Watchlist[last], "-USD", 3);
  }

  /** The result of a whole pass: the digest sent, the alerts sent, and the ledger written back, if any. */
  datatype RunOutcome = RunOutcome(digest: Option<DigestNote>, alerts: seq<Alert>, saved: Option<map<string, int>>)

  /** Reference definition of one pass over the watchlist. */
  function Run(stored: Option<map<string, int>>, start: Clock, feed: seq<TickerInput>): (r: RunOutcome)
    requires |feed| == |Watchlist|
    ensures |r.alerts| <= |Watchlist|
    ensures r.digest.Some? ==> r.saved.Some?
  {
    var d := Digest(Initial(stored), start);
    var p := Pass(d.after, Watchlist, feed);
    RunOutcome(d.note, p.alerts, if p.after.dirty then Some(p.after.entries) else None)
  }

  /**
   * One alert per watchlist entry at most: the alerts of a pass come from strictly increasing
   * positions of the watchlist, each alert carrying the symbol at its position.
   */
  lemma RunOneAlertPerEntry(stored: Option<map<string, int>>, start: Clock, feed: seq<TickerInput>)
    requires |feed| == |Watchlist|
    ensures var r := Run(stored, start, feed);
      var pos := SentPositions(Digest(Initial(stored), start).after, Watchlist, feed);
      && |pos| == |r.alerts|
      && (forall i :: 0 <= i < |pos| ==> pos[i] < |Watchlist| && r.alerts[i].ticker == Watchlist[pos[i]])
      && (forall i, j :: 0 <= i < j < |pos| ==> pos[i] < pos[j])
  {
    var d := Digest(Initial(stored), start);
    assert Run(stored, start, feed).alerts == Pass(d.after, Watchlist, feed).alerts;
  }

  /** The ledger is written back exactly when the digest or some alert was sent. */
  lemma RunPersistsIffChanged(stored: Option<map<string, int>>, start: Clock, feed: seq<TickerInput>)
    requires |feed| == |Watchlist|
    ensures var r := Run(stored, start, feed); r.saved.Some? <==> r.digest.Some? || |r.alerts| > 0
    ensures var r := Run(stored, start, feed);
      r.saved.Some? ==> Initial(stored).entries.Keys <= r.saved.value.Keys
  {
    var d := Digest(Initial(stored), start);
    PassDirtyIffSent(d.after, Watchlist, feed);
    PassOnlyRecordsSentAlerts(d.after, Watchlist, feed);
  }

  /** On a weekend pass the only ticker that can raise an alert is "BTC-USD". */
  lemma WeekendRunOnlyBitcoin(stored: Option<map<string, int>>, start: Clock, feed: seq<TickerInput>)
    requires |feed| == |Watchlist|
    requires forall i :: 0 <= i < |feed| ==> feed[i].weekday >= 5
    ensures forall a :: a in Run(stored, start, feed).alerts ==> a.ticker == "BTC-USD"
  {
    var d := Digest(Initial(stored), start);
    WeekendPassOnlyCrypto(d.after, Watchlist, feed);
    PassOnlyRecordsSentAlerts(d.after, Watchlist, feed);
    WatchlistCrypto();
    forall a | a in Run(stored, start, feed).alerts ensures a.ticker == "BTC-USD" {
      var i :| 0 <= i < |Watchlist| && Watchlist[i] == a.ticker;
    }
  }

  /** One ticker's evaluation against the running ledger. */
  method AnalyzeTicker(ledger: Ledger, ticker: string, input: TickerInput) returns (sent: Option<Alert>)
    modifies ledger
    ensures sent == TickerStep(old(ledger.State()), ticker, input).sent
    ensures ledger.State() == TickerStep(old(ledger.State()), ticker, input).after
  {
    var weekend := input.weekday >= 5;
    var crypto := Text.Contains(ticker, "-USD");
    if weekend && !crypto {
      return None;
    }
    match input.fetch {
      case Unavailable =>
        return None;
      case Fetched(points, price, upper, lower, rsi) =>
        if points < MinHistory {
          return None;
        }
        var note := NoteFor(rsi);
        var category := Classify(price, upper, lower);
        if category.None? {
          return None;
        }
        var alert := Alert(ticker, category.value, note);
        var ok := ledger.MaySend(alert.Key(), input.now);
        sent := if ok then Some(alert) else None;
    }
  }

  /** The loop over the tickers, in order, against the running ledger. */
  method AnalyzeAll(ledger: Ledger, tickers: seq<string>, feed: seq<TickerInput>) returns (alerts: seq<Alert>)
    requires |tickers| == |feed|
    modifies ledger
    ensures PassOutcome(alerts, ledger.State()) == Pass(old(ledger.State()), tickers, feed)
  {
    alerts := [];
    var i := 0;
    while i < |tickers|
      invariant 0 <= i <= |tickers|
      invariant PassOutcome(alerts, ledger.State()) == Pass(old(ledger.State()), tickers[..i], feed[..i])
    {
      var sent := AnalyzeTicker(ledger, tickers[i], feed[i]);
      assert tickers[..i + 1][..i] == tickers[..i];
      assert feed[..i + 1][..i] == feed[..i];
      alerts := alerts + ToSeq(sent);
      i := i + 1;
    }
    assert tickers[..i] == tickers && feed[..i] == feed;
  }

  /** A whole pass: load, digest, every ticker in watchlist order, write back if changed. */
  method RunCycle(stored: Option<map<string, int>>, start: Clock, feed: seq<TickerInput>) returns (r: RunOutcome)
    requires |feed| == |Watchlist|
    ensures r == Run(stored, start, feed)
  {
    var ledger := new Ledger(stored);
    var digest := ledger.CheckDailyDigest(start);
    var alerts := AnalyzeAll(ledger, Watchlist, feed);
    var saved := if ledger.dirty then Some(ledger.entries) else None;
    r := RunOutcome(digest, alerts, saved);
  }
}
