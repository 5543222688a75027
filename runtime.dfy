/** The main loop's variables as one object, updated in place by the tick's steps. */
module Runtime {
  import opened Wrappers
  import opened Market
  import opened CommandText
  import Trading
  import Rsi
  import ParabolicSar

  class Bot {
    // configuration globals the commands reassign
    var symbol: string
    var capital: real
    var maxLossCount: int
    var cooldownTime: int
    // trading and risk state
    var position: Option<Trading.Position>
    var forceBuy: bool
    var forceSell: bool
    var active: bool
    var lossStreak: nat
    var lastPauseTime: Option<real>
    var totalTrades: nat
    var totalProfit: real
    var totalLoss: real
    var tradeHistory: seq<Trading.TradeRecord>
    var candles: seq<Candle>

    /** The current values of all variables. */
    function Snapshot(): Trading.State
      reads this
    {
      Trading.State(symbol, capital, maxLossCount, cooldownTime,
                    position, forceBuy, forceSell, active, lossStreak, lastPauseTime,
                    totalTrades, totalProfit, totalLoss, tradeHistory, candles)
    }

    ghost predicate Valid()
      reads this
    {
      Trading.Inv(Snapshot())
    }

    /** The start of the main block, once the bootstrap fetch returned a window that is
        not None (possibly empty: the main loop then refetches). */
    constructor (initialCandles: seq<Candle>)
      ensures Valid()
      ensures Snapshot() == Trading.Initial(initialCandles)
    {
      symbol, capital := Trading.INITIAL_SYMBOL, Trading.INITIAL_CAPITAL;
      maxLossCount, cooldownTime := Trading.INITIAL_MAX_LOSS_COUNT, Trading.INITIAL_COOLDOWN_TIME;
      position, forceBuy, forceSell, active := None, false, false, true;
      lossStreak, lastPauseTime := 0, None;
      totalTrades, totalProfit, totalLoss := 0, 0.0, 0.0;
      tradeHistory, candles := [], initialCandles;
    }

    /** Resumes after the cooldown when paused with a truthy pause time. */
    method AutoResume(now: real)
      requires Valid()
      modifies this
      ensures Valid()
      ensures Snapshot() == Trading.AutoResume(old(Snapshot()), now)
    {
      if !active && lastPauseTime.Some? && lastPauseTime.value != 0.0 {
        if now - lastPauseTime.value >= cooldownTime as real {
          active := true;
          lossStreak := 0;
          lastPauseTime := None;
        }
      }
      Trading.AutoResumeKeepsInv(old(Snapshot()), now);
    }

    /** The /setpair branch, given the command's split words. */
    method SwitchPair(parts: seq<string>, args: Trading.CommandInputs)
      modifies this
      ensures Snapshot() == Trading.SwitchPair(old(Snapshot()), parts, args)
    {
      if |parts| == 2 {
        var newSymbol := Upper(parts[1]);
        var testPrice := args.probePrice;
        if testPrice.Some? && testPrice.value != 0.0 {
          symbol := newSymbol;
          candles := args.pairCandles;
          position := None;
          tradeHistory := [];
        }
      }
    }

    /** The /setcapital branch, given the command's split words. */
    method UpdateCapital(parts: seq<string>, args: Trading.CommandInputs)
      modifies this
      ensures Snapshot() == Trading.UpdateCapital(old(Snapshot()), parts, args)
    {
      if |parts| == 2 {
        var newCap := args.firstAsFloat;
        if newCap.Some? && newCap.value > 0.0 {
          capital := newCap.value;
        }
      }
    }

    /** The /setlosscount branch, given the command's split words. */
    method UpdateLossControl(parts: seq<string>, args: Trading.CommandInputs)
      modifies this
      ensures Snapshot() == Trading.UpdateLossControl(old(Snapshot()), parts, args)
    {
      if |parts| == 3 {
        var newCount, newMinutes := args.firstAsInt, args.secondAsInt;
        if newCount.Some? && newMinutes.Some? && newCount.value > 0 && newMinutes.value > 0 {
          maxLossCount := newCount.value;
          cooldownTime := newMinutes.value * 60;
        }
      }
    }

    /** Applies one command text (see Trading.CommandInputs for args). */
    method ApplyCommand(cmd: string, args: Trading.CommandInputs)
      requires Valid()
      modifies this
      ensures Valid()
      ensures Snapshot() == Trading.ApplyCommand(old(Snapshot()), cmd, args)
    {
      Trading.ApplyCommandKeepsInv(Snapshot(), cmd, args);
      Execute(Classify(cmd), cmd, args);
    }

    /** Carries out command c, recognized in text cmd. */
    method Execute(c: Command, cmd: string, args: Trading.CommandInputs)
      modifies this
      ensures Snapshot() == Trading.Execute(old(Snapshot()), c, cmd, args)
    {
      match c {
      case ForceBuy =>
        forceBuy := true;
      case ForceSell =>
        forceSell := true;
      case Stop =>
        active := false;
      case Start =>
        active := true;
      case SetPair =>
        SwitchPair(Words(cmd), args);
      case SetCapital =>
        UpdateCapital(Words(cmd), args);
      case SetLossCount =>
        UpdateLossControl(Words(cmd), args);
      case ResetLossCount =>
        lossStreak := 0;
        active := true;
        lastPauseTime := None;
      case Help =>
      case Status =>
      case Pnl =>
      case Trades =>
      case Unrecognized =>
      }
    }

    /** Merges the live price into the last candle; false when the price is falsy and the
        rest of the tick is skipped. */
    method MergeTick(price: Option<real>, refetched: seq<Candle>) returns (proceed: bool)
      requires Valid()
      modifies this
      ensures Valid()
      ensures (Snapshot(), proceed) == Trading.MergeTick(old(Snapshot()), price, refetched)
    {
      if price.None? || price.value == 0.0 {
        return false;
      }
      if |candles| > 0 {
        var last := candles[|candles| - 1];
        candles := candles[..|candles| - 1] + [last.(close := price.value)];
      } else {
        candles := refetched;
      }
      proceed := true;
      Trading.MergeTickKeepsInv(old(Snapshot()), price, refetched, []);
    }

    /** The periodic full refresh. */
    method Refresh(fetched: seq<Candle>)
      requires Valid()
      modifies this
      ensures Valid()
      ensures Snapshot() == Trading.Refresh(old(Snapshot()), fetched)
    {
      if |fetched| > 0 {
        candles := fetched;
      }
    }

    /** Opens a position with the whole capital at price, as the BUY branch does. */
    method Open(price: real)
      requires price != 0.0
      modifies this
      ensures Snapshot() == Trading.Open(old(Snapshot()), price)
    {
      var qty := capital / price;
      position := Some(Trading.Position(price, qty));
      tradeHistory := tradeHistory + [Trading.TradeRecord(Trading.Buy, symbol, price, qty, None)];
      forceBuy := false;
    }

    /** The totals and the loss governor after a round trip that realized pnl. */
    method Account(pnl: real, now: real)
      modifies this
      ensures Snapshot() == Trading.Account(old(Snapshot()), pnl, now)
    {
      if pnl > 0.0 {
        totalProfit := totalProfit + pnl;
        lossStreak := 0;
      } else {
        totalLoss := totalLoss + pnl;
        lossStreak := lossStreak + 1;
        if lossStreak >= maxLossCount {
          active := false;
          lastPauseTime := Some(now);
        }
      }
    }

    /** Closes the open position at price, as the SELL branch does. */
    method Close(price: real, now: real)
      requires position.Some?
      modifies this
      ensures Snapshot() == Trading.Close(old(Snapshot()), price, now)
    {
      var held := position.value;
      var pnl := Trading.PnlAt(held, price);
      var record := Trading.TradeRecord(Trading.Sell, symbol, price, held.amount, Some(pnl));
      totalTrades := totalTrades + 1;
      Account(pnl, now);
      tradeHistory := tradeHistory + [record];
      position := None;
      forceSell := false;
    }

    /** The trading step of a tick with a truthy price. The market order it places is
        not modelled: the state changes whether or not the order succeeds. */
    method TradeStep(price: real, rsi: real, sar: real, now: real)
      requires Valid() && price != 0.0
      modifies this
      ensures Valid()
      ensures Snapshot() == Trading.TradeStep(old(Snapshot()), price, rsi, sar, now)
    {
      ghost var s0 := Snapshot();
      if active {
        if position.None? {
          if forceBuy || (Trading.BUY_RSI_MIN <= rsi <= Trading.BUY_RSI_MAX && price > sar) {
            Open(price);
          }
        } else {
          var pnl := Trading.PnlAt(position.value, price);
          var profitTarget := capital * Trading.PROFIT_TARGET_PERCENT;
          var stoplossTarget := capital * Trading.STOPLOSS_TARGET_PERCENT;
          if forceSell || pnl >= profitTarget || pnl <= stoplossTarget || rsi <= Trading.RSI_SELL {
            Close(price, now);
          }
        }
      }
      Trading.TradeStepKeepsInv(s0, price, rsi, sar, now);
    }

    /** One tick of the main loop: auto-resume, the command if one was delivered, the
        live-tick merge and refresh, the indicators, and the trading step. */
    method Tick(now: real, io: Trading.TickInputs) returns (outcome: Trading.TickOutcome)
      requires Valid()
      modifies this
      ensures Valid()
      ensures (Snapshot(), outcome) == Trading.Tick(old(Snapshot()), now, io)
    {
      AutoResume(now);
      if io.cmd.Some? {
        ApplyCommand(io.cmd.value, io.args);
      }
      var proceed := MergeTick(io.price, io.refetched);
      if !proceed {
        return Trading.NoPrice;
      }
      Refresh(io.refreshed);
      if |candles| == 0 {
        return Trading.EmptyWindow;
      }
      var rsi := Rsi.CalculateRsi(candles, Rsi.RSI_PERIOD);
      var sar, trend := ParabolicSar.CalculateSar(candles);
      TradeStep(io.price.value, rsi, sar, now);
      outcome := Trading.Evaluated(rsi, sar, trend);
    }
  }
}
