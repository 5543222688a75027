/** The bot's runtime state and its transitions, as values: auto-resume, the command
    processor, the live-tick merge, the candle refresh, the trading step and one whole
    tick. The class Runtime.Bot keeps the same variables as fields and is proved to
    follow these functions. */
module Trading {
  import opened Wrappers
  import opened Market
  import opened CommandText
  import Rsi
  import ParabolicSar

  const INITIAL_SYMBOL: string := "XRPUSDT"
  const INITIAL_CAPITAL: real := 2.0
  const BUY_RSI_MIN: real := 47.0
  const BUY_RSI_MAX: real := 52.0
  const RSI_SELL: real := 43.0
  const PROFIT_TARGET_PERCENT: real := 0.01
  const STOPLOSS_TARGET_PERCENT: real := -0.0009
  const INITIAL_MAX_LOSS_COUNT: int := 3
  const INITIAL_COOLDOWN_TIME: int := 600

  datatype Side = Buy | Sell

  /** The open position: the price paid and the quantity bought. */
  datatype Position = Position(buyPrice: real, amount: real)

  /** One ledger entry; only a closing (SELL) entry carries the realized pnl. The
      wall-clock text of the entry is not modelled. */
  datatype TradeRecord = TradeRecord(side: Side, symbol: string, price: real, amount: real, pnl: Option<real>)

  /** Every variable of the main loop that a tick reads or writes, with the four
      configuration globals the commands reassign. */
  datatype State = State(
    symbol: string, capital: real, maxLossCount: int, cooldownTime: int,
    position: Option<Position>, forceBuy: bool, forceSell: bool, active: bool,
    lossStreak: nat, lastPauseTime: Option<real>,
    totalTrades: nat, totalProfit: real, totalLoss: real,
    tradeHistory: seq<TradeRecord>, candles: seq<Candle>)

  /** Python truthiness of an optional number: present and non-zero. */
  predicate Truthy(x: Option<real>)
  {
    x.Some? && x.value != 0.0
  }

  /** A SELL record closes the BUY record before it: same amount, and the pnl of the
      round trip. */
  predicate Settles(sell: TradeRecord, buy: TradeRecord)
  {
    sell.amount == buy.amount && sell.pnl == Some((sell.price - buy.price) * buy.amount)
  }

  /** The ledger read back from its last record: records alternate BUY, SELL, BUY, ...,
      all for symbol; a BUY carries no pnl; each SELL settles the BUY before it. */
  ghost predicate Ledger(h: seq<TradeRecord>, symbol: string)
    decreases |h|
  {
    |h| == 0 ||
    var last := h[|h| - 1];
    && Ledger(h[..|h| - 1], symbol)
    && last.symbol == symbol
    && if |h| % 2 == 1 then last.side == Buy && last.pnl.None?
       else last.side == Sell && Settles(last, h[|h| - 2])
  }

  /** The same ledger read record by record. */
  ghost predicate Alternating(h: seq<TradeRecord>, symbol: string)
  {
    && (forall i :: 0 <= i < |h| ==> h[i].symbol == symbol)
    && (forall i :: 0 <= i < |h| ==> (h[i].side == Buy <==> i % 2 == 0))
    && (forall i :: 0 <= i < |h| ==> (h[i].pnl.Some? <==> h[i].side == Sell))
    && (forall i :: 0 < i < |h| && i % 2 == 1 ==> Settles(h[i], h[i - 1]))
  }

  /** A well-formed ledger whose open position, if any, is its last BUY. */
  ghost predicate LedgerMatches(h: seq<TradeRecord>, position: Option<Position>, symbol: string)
  {
    && Ledger(h, symbol)
    && (position.Some? <==> |h| % 2 == 1)
    && (position.Some? ==> position.value == Position(h[|h| - 1].price, h[|h| - 1].amount))
  }

  /** What every reachable state satisfies. */
  ghost predicate Inv(s: State)
  {
    && |s.symbol| > 0 && IsUpper(s.symbol)
    && s.capital > 0.0 && s.maxLossCount > 0 && s.cooldownTime > 0
    && s.totalProfit >= 0.0 && s.totalLoss <= 0.0
    && |s.tradeHistory| / 2 <= s.totalTrades
    && LedgerMatches(s.tradeHistory, s.position, s.symbol)
  }

  /** The state once the initial candle fetch has succeeded. */
  function Initial(candles: seq<Candle>): (s: State)
    ensures Inv(s)
  {
    State(INITIAL_SYMBOL, INITIAL_CAPITAL, INITIAL_MAX_LOSS_COUNT, INITIAL_COOLDOWN_TIME,
          None, false, false, true, 0, None, 0, 0.0, 0.0, [], candles)
  }

  // ---------------------------------------------------------------------------
  // Auto-resume

  predicate ResumeDue(s: State, now: real)
  {
    !s.active && Truthy(s.lastPauseTime) && now - s.lastPauseTime.value >= s.cooldownTime as real
  }

  /** The cooldown check at the top of every tick. */
  function AutoResume(s: State, now: real): State
  {
    if ResumeDue(s, now) then s.(active := true, lossStreak := 0, lastPauseTime := None) else s
  }

  // ---------------------------------------------------------------------------
  // Commands

  /** What a command text needs from outside: float() of its first argument and int() of
      its first and second arguments (None where they raise ValueError), and, for
      /setpair, the price probe and the candle fetch of the upper-cased symbol argument
      (None, and the empty window, on failure). */
  datatype CommandInputs = CommandInputs(
    firstAsFloat: Option<real>, firstAsInt: Option<int>, secondAsInt: Option<int>,
    probePrice: Option<real>, pairCandles: seq<Candle>)

  /** Both integers parsed and both above zero. */
  predicate ValidLossControl(args: CommandInputs)
  {
    args.firstAsInt.Some? && args.secondAsInt.Some? && args.firstAsInt.value > 0 && args.secondAsInt.value > 0
  }

  /** /setpair with its split words: switches symbol and window and clears the position
      and the ledger when there is exactly one argument and its price probe is truthy. */
  function SwitchPair(s: State, parts: seq<string>, args: CommandInputs): State
  {
    if |parts| == 2 && Truthy(args.probePrice) then
      s.(symbol := Upper(parts[1]), candles := args.pairCandles, position := None, tradeHistory := [])
    else s
  }

  /** /setcapital with its split words: exactly one argument that parses above zero. */
  function UpdateCapital(s: State, parts: seq<string>, args: CommandInputs): State
  {
    if |parts| == 2 && args.firstAsFloat.Some? && args.firstAsFloat.value > 0.0 then
      s.(capital := args.firstAsFloat.value)
    else s
  }

  /** /setlosscount with its split words: exactly two arguments that parse above zero;
      the second is in minutes. */
  function UpdateLossControl(s: State, parts: seq<string>, args: CommandInputs): State
  {
    if |parts| == 3 && ValidLossControl(args) then
      s.(maxLossCount := args.firstAsInt.value, cooldownTime := args.secondAsInt.value * 60)
    else s
  }

  /** Applies one command text. */
  function ApplyCommand(s: State, cmd: string, args: CommandInputs): State
  {
    Execute(s, Classify(cmd), cmd, args)
  }

  /** Carries out command c, recognized in text cmd. */
  function Execute(s: State, c: Command, cmd: string, args: CommandInputs): State
  {
    match c
    case ForceBuy => s.(forceBuy := true)
    case ForceSell => s.(forceSell := true)
    case Stop => s.(active := false)
    case Start => s.(active := true)
    case SetPair => SwitchPair(s, Words(cmd), args)
    case SetCapital => UpdateCapital(s, Words(cmd), args)
    case SetLossCount => UpdateLossControl(s, Words(cmd), args)
    case ResetLossCount => s.(lossStreak := 0, active := true, lastPauseTime := None)
    case Help => s
    case Status => s
    case Pnl => s
    case Trades => s
    case Unrecognized => s
  }

  // ---------------------------------------------------------------------------
  // Market data

  /** The live-tick merge: a falsy price skips the rest of the tick (false); otherwise the
      last candle's close becomes the price, or, with no window, the window is fetched
      again (refetched, empty on failure). */
  function MergeTick(s: State, price: Option<real>, refetched: seq<Candle>): (State, bool)
  {
    if !Truthy(price) then (s, false)
    else if |s.candles| > 0 then (s.(candles := MergeClose(s.candles, price.value)), true)
    else (s.(candles := refetched), true)
  }

  /** The periodic full refresh: a non-empty fetched window replaces the old one. */
  function Refresh(s: State, fetched: seq<Candle>): State
  {
    if |fetched| > 0 then s.(candles := fetched) else s
  }

  // ---------------------------------------------------------------------------
  // Trading logic

  predicate EntrySignal(forceBuy: bool, price: real, rsi: real, sar: real)
  {
    forceBuy || (BUY_RSI_MIN <= rsi <= BUY_RSI_MAX && price > sar)
  }

  function PnlAt(p: Position, price: real): real
  {
    (price - p.buyPrice) * p.amount
  }

  predicate ExitSignal(forceSell: bool, pnl: real, capital: real, rsi: real)
  {
    || forceSell
    || pnl >= capital * PROFIT_TARGET_PERCENT
    || pnl <= capital * STOPLOSS_TARGET_PERCENT
    || rsi <= RSI_SELL
  }

  /** The running totals and the loss governor after a round trip that realized pnl:
      a gain resets the losing streak; a loss extends it and, once it reaches the
      limit, pauses trading and stamps the pause time. */
  function Account(s: State, pnl: real, now: real): State
  {
    if pnl > 0.0 then s.(totalProfit := s.totalProfit + pnl, lossStreak := 0)
    else
      var lost := s.(totalLoss := s.totalLoss + pnl, lossStreak := s.lossStreak + 1);
      if lost.lossStreak >= s.maxLossCount then lost.(active := false, lastPauseTime := Some(now))
      else lost
  }

  /** The closing transition: the trade counted and accounted, the SELL recorded, the
      position and the force flag cleared. */
  function Close(s: State, price: real, now: real): State
    requires s.position.Some?
  {
    var p := s.position.value;
    var pnl := PnlAt(p, price);
    var accounted := Account(s.(totalTrades := s.totalTrades + 1), pnl, now);
    accounted.(tradeHistory := s.tradeHistory + [TradeRecord(Sell, s.symbol, price, p.amount, Some(pnl))],
               position := None, forceSell := false)
  }

  /** The opening transition: the whole capital bought at price, the BUY recorded and
      the force flag cleared. */
  function Open(s: State, price: real): State
    requires price != 0.0
  {
    var qty := s.capital / price;
    s.(position := Some(Position(price, qty)),
       tradeHistory := s.tradeHistory + [TradeRecord(Buy, s.symbol, price, qty, None)],
       forceBuy := false)
  }

  /** The trading step of a tick with a truthy price: nothing while paused; when flat, a
      BUY on the entry signal; when holding, a SELL on the exit signal. The market order
      itself has no effect on the state. */
  function TradeStep(s: State, price: real, rsi: real, sar: real, now: real): State
    requires price != 0.0
  {
    if !s.active then s
    else if s.position.None? then
      if EntrySignal(s.forceBuy, price, rsi, sar) then Open(s, price) else s
    else if ExitSignal(s.forceSell, PnlAt(s.position.value, price), s.capital, rsi) then Close(s, price, now)
    else s
  }

  // ---------------------------------------------------------------------------
  // One tick

  /** How a tick ends: no price (the rest is skipped), an empty window (the source's
      indicator call raises and the loop stops), or the indicators it evaluated. */
  datatype TickOutcome = NoPrice | EmptyWindow | Evaluated(rsi: real, sar: real, trend: ParabolicSar.Trend)

  /** The inputs one tick receives from outside: the command text if the poll ran and
      delivered one, with what it needs; the live price; the window refetched when the
      merge finds none; and the full refresh (empty when it is not due or failed). */
  datatype TickInputs = TickInputs(
    cmd: Option<string>, args: CommandInputs,
    price: Option<real>, refetched: seq<Candle>, refreshed: seq<Candle>)

  /** The state after the steps before the trade evaluation. */
  function Prepare(s: State, now: real, io: TickInputs): (State, bool)
  {
    var resumed := AutoResume(s, now);
    var commanded :=
      if io.cmd.Some? then ApplyCommand(resumed, io.cmd.value, io.args)
      else resumed;
    var (merged, proceed) := MergeTick(commanded, io.price, io.refetched);
    if proceed then (Refresh(merged, io.refreshed), true) else (merged, false)
  }

  /** One tick of the main loop, in the source's order. */
  function Tick(s: State, now: real, io: TickInputs): (State, TickOutcome)
  {
    var (t, proceed) := Prepare(s, now, io);
    if !proceed then (t, NoPrice)
    else if |t.candles| == 0 then (t, EmptyWindow)
    else
      var rsi := Rsi.RsiOf(Closes(t.candles), Rsi.RSI_PERIOD);
      var (sar, trend) := ParabolicSar.SarOf(t.candles);
      (TradeStep(t, io.price.value, rsi, sar, now), Evaluated(rsi, sar, trend))
  }

  // ---------------------------------------------------------------------------
  // Properties: the invariant

  lemma AutoResumeKeepsInv(s: State, now: real)
    requires Inv(s)
    ensures Inv(AutoResume(s, now))
  {
  }

  lemma ApplyCommandKeepsInv(s: State, cmd: string, args: CommandInputs)
    requires Inv(s)
    ensures Inv(ApplyCommand(s, cmd, args))
  {
    var parts := Words(cmd);
    if Classify(cmd) == SetPair && |parts| == 2 {
      assert IsWord(parts[1]);
    }
  }

  /** The merge and the refresh touch only the window, on which the invariant places no
      constraint, so both keep it. */
  lemma MergeTickKeepsInv(s: State, price: Option<real>, refetched: seq<Candle>, fetched: seq<Candle>)
    requires Inv(s)
    ensures Inv(MergeTick(s, price, refetched).0)
    ensures Inv(Refresh(s, fetched))
  {
  }

  /** The two readings of the ledger agree. */
  lemma {:induction false} LedgerIsAlternating(h: seq<TradeRecord>, symbol: string)
    ensures Ledger(h, symbol) <==> Alternating(h, symbol)
    decreases |h|
  {
    if |h| > 0 {
      var n := |h|;
      var p := h[..n - 1];
      LedgerIsAlternating(p, symbol);
      assert forall i :: 0 <= i < n - 1 ==> p[i] == h[i];
      if Alternating(h, symbol) {
        assert Alternating(p, symbol);
        assert h[n - 1].symbol == symbol;
        assert h[n - 1].side == Buy <==> (n - 1) % 2 == 0;
        assert h[n - 1].pnl.Some? <==> h[n - 1].side == Sell;
        if n % 2 == 0 { assert Settles(h[n - 1], h[n - 2]); }
      }
      if Ledger(h, symbol) {
        forall i | 0 <= i < n
          ensures h[i].symbol == symbol
          ensures h[i].side == Buy <==> i % 2 == 0
          ensures h[i].pnl.Some? <==> h[i].side == Sell
        {
          if i < n - 1 { assert p[i] == h[i]; }
        }
        forall i | 0 < i < n && i % 2 == 1
          ensures Settles(h[i], h[i - 1])
        {
          if i < n - 1 { assert p[i] == h[i] && p[i - 1] == h[i - 1]; }
        }
      }
    }
  }

  /** Opening when flat appends a BUY at an even index, which the ledger accepts. */
  lemma BuyKeepsLedger(h: seq<TradeRecord>, symbol: string, price: real, qty: real)
    requires LedgerMatches(h, None, symbol)
    ensures LedgerMatches(h + [TradeRecord(Buy, symbol, price, qty, None)], Some(Position(price, qty)), symbol)
  {
    var h' := h + [TradeRecord(Buy, symbol, price, qty, None)];
    assert h'[..|h|] == h;
  }

  /** Closing the position appends its SELL, with its pnl, at an odd index. */
  lemma SellKeepsLedger(h: seq<TradeRecord>, p: Position, symbol: string, price: real)
    requires LedgerMatches(h, Some(p), symbol)
    ensures LedgerMatches(h + [TradeRecord(Sell, symbol, price, p.amount, Some(PnlAt(p, price)))], None, symbol)
  {
    var r := TradeRecord(Sell, symbol, price, p.amount, Some(PnlAt(p, price)));
    var h' := h + [r];
    var buy := h[|h| - 1];
    assert h'[..|h|] == h;
    assert h'[|h|] == r && h'[|h| - 1] == buy;
    assert p == Position(buy.price, buy.amount);
    var pnl := (r.price - buy.price) * buy.amount;
    assert pnl == PnlAt(p, price);
    assert r.pnl == Some(pnl);
    assert Settles(r, buy);
  }

  /** A BUY appends an even-indexed BUY record, a SELL an odd-indexed SELL record whose
      pnl is that of the position; so the ledger keeps matching the position, the profit
      total only grows and the loss total only shrinks. */
  lemma TradeStepKeepsInv(s: State, price: real, rsi: real, sar: real, now: real)
    requires Inv(s) && price != 0.0
    ensures Inv(TradeStep(s, price, rsi, sar, now))
  {
    var t := TradeStep(s, price, rsi, sar, now);
    var h := s.tradeHistory;
    if t != s {
      assert s.active;
      if s.position.None? {
        BuyKeepsLedger(h, s.symbol, price, s.capital / price);
      } else {
        SellKeepsLedger(h, s.position.value, s.symbol, price);
      }
    }
  }

  lemma TickKeepsInv(s: State, now: real, io: TickInputs)
    requires Inv(s)
    ensures Inv(Tick(s, now, io).0)
  {
    var resumed := AutoResume(s, now);
    AutoResumeKeepsInv(s, now);
    var commanded :=
      if io.cmd.Some? then ApplyCommand(resumed, io.cmd.value, io.args)
      else resumed;
    if io.cmd.Some? {
      ApplyCommandKeepsInv(resumed, io.cmd.value, io.args);
    }
    var (merged, proceed) := MergeTick(commanded, io.price, io.refetched);
    MergeTickKeepsInv(commanded, io.price, io.refetched, io.refreshed);
    MergeTickKeepsInv(merged, io.price, io.refetched, io.refreshed);
    var (t, ok) := Prepare(s, now, io);
    if ok && |t.candles| > 0 {
      var rsi := Rsi.RsiOf(Closes(t.candles), Rsi.RSI_PERIOD);
      var (sar, trend) := ParabolicSar.SarOf(t.candles);
      TradeStepKeepsInv(t, io.price.value, rsi, sar, now);
    }
  }

  // ---------------------------------------------------------------------------
  // Properties: the trading step

  /** While paused the trading step changes nothing; pending force flags stay set. */
  lemma PausedChangesNothing(s: State, price: real, rsi: real, sar: real, now: real)
    requires price != 0.0 && !s.active
    ensures TradeStep(s, price, rsi, sar, now) == s
  {
  }

  /** Entry: when active and flat, a position opens exactly on the entry signal, at the
      price, sized capital / price, with one BUY record and force_buy cleared, and
      nothing else changes. */
  lemma EntryRule(s: State, price: real, rsi: real, sar: real, now: real)
    requires price != 0.0 && s.active && s.position.None?
    ensures var t := TradeStep(s, price, rsi, sar, now);
      && (t.position.Some? <==> EntrySignal(s.forceBuy, price, rsi, sar))
      && (EntrySignal(s.forceBuy, price, rsi, sar) ==>
            t == s.(position := Some(Position(price, s.capital / price)),
                    tradeHistory := s.tradeHistory + [TradeRecord(Buy, s.symbol, price, s.capital / price, None)],
                    forceBuy := false))
      && (!EntrySignal(s.forceBuy, price, rsi, sar) ==> t == s)
  {
  }

  /** Exit: when active and holding, the position closes exactly on the exit signal; the
      trade count grows by one, one SELL record with the pnl is appended, and the
      position and force_sell are cleared. */
  lemma ExitRule(s: State, price: real, rsi: real, sar: real, now: real)
    requires price != 0.0 && s.active && s.position.Some?
    ensures var t := TradeStep(s, price, rsi, sar, now);
      var pnl := PnlAt(s.position.value, price);
      && (t.position.None? <==> ExitSignal(s.forceSell, pnl, s.capital, rsi))
      && (ExitSignal(s.forceSell, pnl, s.capital, rsi) ==>
            && t.totalTrades == s.totalTrades + 1
            && t.tradeHistory == s.tradeHistory + [TradeRecord(Sell, s.symbol, price, s.position.value.amount, Some(pnl))]
            && !t.forceSell
            && t.symbol == s.symbol && t.capital == s.capital && t.candles == s.candles
            && t.forceBuy == s.forceBuy)
      && (!ExitSignal(s.forceSell, pnl, s.capital, rsi) ==> t == s)
  {
  }

  /** The loss governor on a closing step: a profit adds to the profit total and resets
      the streak; a loss adds to the loss total and extends the streak by one, and once
      the streak reaches the limit pauses the bot with the pause time now. */
  lemma GovernorRule(s: State, price: real, rsi: real, sar: real, now: real)
    requires price != 0.0 && s.active && s.position.Some?
    requires ExitSignal(s.forceSell, PnlAt(s.position.value, price), s.capital, rsi)
    ensures var t := TradeStep(s, price, rsi, sar, now);
      var pnl := PnlAt(s.position.value, price);
      && (pnl > 0.0 ==>
            t.totalProfit == s.totalProfit + pnl && t.totalLoss == s.totalLoss
            && t.lossStreak == 0 && t.active && t.lastPauseTime == s.lastPauseTime)
      && (pnl <= 0.0 ==>
            t.totalLoss == s.totalLoss + pnl && t.totalProfit == s.totalProfit
            && t.lossStreak == s.lossStreak + 1
            && (t.lossStreak >= s.maxLossCount ==> !t.active && t.lastPauseTime == Some(now))
            && (t.lossStreak < s.maxLossCount ==> t.active && t.lastPauseTime == s.lastPauseTime))
  {
  }

  /** A step opens or closes at most one position and never opens one over another. */
  lemma AtMostOneTransition(s: State, price: real, rsi: real, sar: real, now: real)
    requires price != 0.0
    ensures var t := TradeStep(s, price, rsi, sar, now);
      && |s.tradeHistory| <= |t.tradeHistory| <= |s.tradeHistory| + 1
      && (s.position.Some? && t.position.Some? ==> t.position == s.position)
  {
  }

  /** The scenario of a full round trip: at price 100 with RSI 50 above the SAR a flat,
      active bot with capital 2 buys 0.02; at price 101 the pnl 0.02 meets the 1% profit
      target, so it sells, books 0.02 as profit and keeps the streak at 0. */
  lemma RoundTripScenario(s: State, now: real)
    requires s.active && s.position.None? && !s.forceSell && s.capital == 2.0 && s.lossStreak == 0
    ensures var bought := TradeStep(s, 100.0, 50.0, 99.0, now);
      && bought.position == Some(Position(100.0, 0.02))
      && var sold := TradeStep(bought, 101.0, 50.0, 99.0, now);
      && sold.position.None?
      && sold.tradeHistory[|sold.tradeHistory| - 1].pnl == Some(0.02)
      && sold.totalProfit == s.totalProfit + 0.02
      && sold.lossStreak == 0 && sold.active
  {
    var bought := TradeStep(s, 100.0, 50.0, 99.0, now);
    assert PnlAt(Position(100.0, 0.02), 101.0) == 0.02;
  }

  // ---------------------------------------------------------------------------
  // Properties: auto-resume and commands

  /** Auto-resume fires exactly when paused, with a truthy pause time at least the
      cooldown in the past; it then reactivates, zeroes the streak and clears the pause. */
  lemma AutoResumeRule(s: State, now: real)
    ensures var t := AutoResume(s, now);
      && (t != s <==> ResumeDue(s, now))
      && (ResumeDue(s, now) ==> t == s.(active := true, lossStreak := 0, lastPauseTime := None))
  {
  }

  /** /resetlosscount resumes from any state: active or paused, stopped by hand or by the
      governor, before or after the cooldown; where an auto-resume is due it has the same
      effect as that resume. */
  lemma ResetIsUnconditionalResume(s: State, now: real, args: CommandInputs)
    ensures ApplyCommand(s, "/resetlosscount", args) == s.(lossStreak := 0, active := true, lastPauseTime := None)
    ensures ResumeDue(s, now) ==> ApplyCommand(s, "/resetlosscount", args) == AutoResume(s, now)
  {
    ClassifyKeywords();
  }

  /** /setcapital commits only a parsed value above zero, and only with exactly one argument. */
  lemma SetCapitalRule(s: State, cmd: string, args: CommandInputs)
    requires "/setcapital" <= cmd
    ensures var t := ApplyCommand(s, cmd, args);
      var parts := Words(cmd);
      var ok := |parts| == 2 && args.firstAsFloat.Some? && args.firstAsFloat.value > 0.0;
      && (ok ==> t == s.(capital := args.firstAsFloat.value))
      && (!ok ==> t == s)
  {
    ClassifySetters(cmd);
  }

  /** /setlosscount commits only two parsed integers above zero, the second in minutes. */
  lemma SetLossCountRule(s: State, cmd: string, args: CommandInputs)
    requires "/setlosscount" <= cmd
    ensures var t := ApplyCommand(s, cmd, args);
      var parts := Words(cmd);
      var ok := |parts| == 3 && ValidLossControl(args);
      && (ok ==> t == s.(maxLossCount := args.firstAsInt.value, cooldownTime := args.secondAsInt.value * 60))
      && (!ok ==> t == s)
  {
    ClassifySetters(cmd);
  }

  /** /setpair commits the upper-cased symbol only when its price probe is truthy, and
      then drops the position and the ledger and reloads the window; the totals, the
      streak and the other configuration stay. */
  lemma SetPairRule(s: State, cmd: string, args: CommandInputs)
    requires "/setpair" <= cmd
    ensures var t := ApplyCommand(s, cmd, args);
      var parts := Words(cmd);
      var ok := |parts| == 2 && Truthy(args.probePrice);
      && (ok ==> t == s.(symbol := Upper(parts[1]), candles := args.pairCandles,
                         position := None, tradeHistory := []))
      && (!ok ==> t == s)
  {
    ClassifySetters(cmd);
  }

  /** The reporting commands and unrecognized texts change nothing. */
  lemma ReportsChangeNothing(s: State, cmd: string, args: CommandInputs)
    requires Classify(cmd) in {Help, Status, Pnl, Trades, Unrecognized}
    ensures ApplyCommand(s, cmd, args) == s
  {
  }

  // ---------------------------------------------------------------------------
  // Properties: tick merge and ordering

  /** A falsy price skips the tick; otherwise the merge changes only the last close, and
      keeps the number of candles. */
  lemma MergeTickRule(s: State, price: Option<real>, refetched: seq<Candle>)
    ensures var (t, proceed) := MergeTick(s, price, refetched);
      && (proceed <==> Truthy(price))
      && (!proceed ==> t == s)
      && (proceed && |s.candles| > 0 ==>
            && t == s.(candles := t.candles)
            && |t.candles| == |s.candles|
            && Closes(t.candles) == Closes(s.candles)[..|s.candles| - 1] + [price.value]
            && (forall i :: 0 <= i < |s.candles| - 1 ==> t.candles[i] == s.candles[i]))
  {
    if Truthy(price) && |s.candles| > 0 {
      MergeCloseCloses(s.candles, price.value);
    }
  }

  /** A command is seen by the trading evaluation of the same tick: a /buy delivered to an
      active, flat bot on a tick with a truthy price and a window buys at that price. */
  lemma ForceBuyActsInSameTick(s: State, now: real, io: TickInputs)
    requires s.active && s.position.None? && |s.candles| > 0
    requires io.cmd == Some("/buy") && Truthy(io.price)
    ensures Tick(s, now, io).0.position == Some(Position(io.price.value, s.capital / io.price.value))
  {
    var (t, ok) := Prepare(s, now, io);
    assert ok && t.forceBuy && t.active && t.position.None? && t.capital == s.capital;
    assert |t.candles| > 0;
  }
}
