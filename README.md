# MEXC RSI/SAR trading bot — a verified model

The bot in `main.py` trades one spot pair on the MEXC exchange. On every tick of its main loop it:

1. resumes after a loss-streak cooldown;
2. processes a Telegram command, if one was delivered;
3. merges the live price into the last one-minute candle and sometimes refreshes the whole window;
4. computes a Wilder-smoothed RSI and a Parabolic SAR over the window;
5. buys with its whole capital, or sells the open position, on fixed RSI, SAR and profit/stop-loss thresholds.

A loss governor pauses trading after a configurable number of losing round trips in a row.

This project models that core in Dafny:

- `Market`: the candle window (high, low and close of each kline) and the live-tick merge.
- `Rsi`: `calculate_rsi` as a specification function (`RsiOf`, with the recursive smoothing `Smooth`). The loop method `CalculateRsi` is proved to compute it.
- `ParabolicSar`: `calculate_sar` as a step function `Step`, iterated by `Run`. The loop method `CalculateSar` is proved to compute `SarOf`.
  - The reversal branches are modelled as written.
  - The model proves they never fire: the candidate SAR is a `min` that includes `low[i]` (a `max` that includes `high[i]` in a downtrend), so it can never lie beyond that price.
  - So the trend chosen from the first two highs is kept for the whole window.
- `CommandText`: the text side of the command processor:
  - the if/elif dispatch (`Classify`);
  - `str.split()` on Python's whitespace set (`Words`);
  - ASCII `str.upper()`;
  - the quote/base asset split of a symbol.
- `Trading`: the main loop's variables as a `State` value and each step of a tick as a function on it. `Inv` is the invariant every reachable state keeps:
  - the symbol is non-empty and upper-case;
  - capital, loss limit and cooldown are positive;
  - profit total >= 0 >= loss total;
  - the trade ledger alternates BUY and SELL for the current symbol, each SELL settles the BUY before it, and the open position is the last BUY.

  The lemmas state the entry, exit and governor rules, the command rules and the tick ordering.
- `Runtime`: class `Bot`, whose fields are the loop's variables and configuration globals.
  - Its methods update the fields in place, as the source does.
  - Each method is proved to leave `Snapshot()` equal to the corresponding `Trading` function of the old snapshot.
  - The public steps also keep `Valid()`, which is `Trading.Inv` of the snapshot.

Outside inputs are parameters:

- the clock (`now`);
- the live price (`Option<real>`; `None` is a failed fetch);
- candle windows (the empty sequence for a failed fetch);
- the command text;
- a `Trading.CommandInputs` value holding what the command needs: `float()` and `int()` of its arguments (`None` where they raise `ValueError`), and the price probe and candle fetch for `/setpair`.

The market order placed by a trade returns nothing to the loop, so it has no effect on the state.

## Model

| member | source | states |
|---|---|---|
| Market.Closes | main.py:98 | the close column of the window, candle by candle, same length |
| Market.MergeClose | main.py:343-344 | the merge keeps the window length and every candle but the last; the last keeps its high and low and gets the tick price as close |
| Market.MergeCloseCloses | main.py:343-344 | after the merge the closes are the old closes with the last one replaced by the tick price |
| Rsi.Gain | main.py:101-102 | a step's gain is never negative |
| Rsi.Loss | main.py:101-103 | a step's loss is never negative |
| Rsi.SumGains | main.py:104 | the seeding sum of gains is never negative |
| Rsi.SumLosses | main.py:105 | the seeding sum of losses is never negative |
| Rsi.Strength | main.py:108-109 | 100 - 100/(1+rs) with a non-negative gain and a positive loss lies in [0, 100) |
| Rsi.Wilder | main.py:111-112 | Wilder's update keeps an average non-negative, and positive when it was positive and the period is at least 2 |
| Rsi.Smooth | main.py:110-116 | from a non-negative average gain and a positive average loss, the smoothing loop ends with a value in [0, 100] |
| Rsi.RsiOf | main.py:97-117 | calculate_rsi's result lies in [0, 100] |
| Rsi.CalculateRsi | main.py:97-117 | the loop returns exactly RsiOf of the closes: 50 when there are at most `period` closes, and always a value in [0, 100] |
| Rsi.NoFallNoLoss | main.py:103-105 | closes that never fall have a zero loss sum |
| Rsi.OnlyFallNoGain | main.py:102-105 | closes that only fall have a zero gain sum and a positive loss sum |
| Rsi.RsiNonDecreasingSaturates | main.py:104-107 | a window whose closes never fall, longer than the period, gives exactly 100 |
| Rsi.SmoothOnlyFallIsZero | main.py:110-116 | with only falling closes the smoothed gain stays 0, so the loop ends at RSI 0 |
| Rsi.RsiStrictlyFallingIsZero | main.py:97-117 | a strictly falling window longer than the period gives exactly 0 |
| Rsi.SmoothBelowSaturation | main.py:110-116 | for a period of at least 2 the in-loop saturation exit never fires, and the result stays below 100 |
| Rsi.RsiSaturatesIff | main.py:104-117 | for a period of at least 2 and enough data: RSI is 100 if and only if the seeding window holds no loss |
| ParabolicSar.Init | main.py:125-128 | defines the loop's starting values: SAR low[0], direction from the first two highs, extreme point high[0] or low[0], factor 0.02; their properties are proved in ParabolicSar.RunKeepsInvariant |
| ParabolicSar.Step | main.py:129-147 | defines one loop iteration, both reversal branches and both extreme-point updates included; its properties are proved in ParabolicSar.RunKeepsInvariant and ParabolicSar.TrendNeverReverses |
| ParabolicSar.SarOf | main.py:120-151 | defines calculate_sar's result, the short-window fallback included; its properties are proved in ParabolicSar.CalculateSar, ParabolicSar.SarOnSafeSide and ParabolicSar.ReportedTrendFixedByFirstTwoHighs |
| ParabolicSar.Run | main.py:125-147 | after the loop has handled candles 1..i-1 the SAR list holds exactly i values |
| ParabolicSar.CalculateSar | main.py:120-151 | the loop returns exactly SarOf: `(low[-1], Downtrend)` for one candle; otherwise Uptrend if and only if the last close is above the returned SAR |
| ParabolicSar.RunKeepsInvariant | main.py:126-147 | at every step the direction is the one chosen from the first two highs, af lies in [0.02, 0.2], ep is the running maximum high (up) or minimum low (down), and every appended SAR is at or below its candle's low (up) or at or above its high (down) |
| ParabolicSar.TrendNeverReverses | main.py:131-146 | the reversal branches never fire: the direction of every state is the initial one |
| ParabolicSar.AfNeverDecreases | main.py:128-146 | the acceleration factor never decreases from one step to the next |
| ParabolicSar.SarOnSafeSide | main.py:132-148 | the latest SAR is at or below the last low in an uptrend, at or above the last high in a downtrend |
| ParabolicSar.ReportedTrendFixedByFirstTwoHighs | main.py:126-150 | after a downward start Uptrend is reported only when the last close is above the last high; after an upward start any close above the last low reports Uptrend |
| CommandText.SkipSpaces | main.py:242 | stripping leading whitespace leaves a suffix that starts with a non-space |
| CommandText.WordLength | main.py:242 | the first word's length: no whitespace before it and whitespace or the end at it |
| CommandText.Words | main.py:242 | every piece of `cmd.split()` is non-empty and whitespace-free |
| CommandText.WordLengthOfWord | main.py:242 | a word followed by whitespace or the end has its own length as first-word length |
| CommandText.WordsOfWordThen | main.py:242 | a word followed by whitespace or the end is the first piece of the split |
| CommandText.WordsSkipsSpace | main.py:242 | a leading space does not change the split |
| CommandText.WordsSkipsSpaceRun | main.py:242 | any run of whitespace characters in front of a text, of any length, does not change the split |
| CommandText.WordsOfSeparated | main.py:242-243 | a word followed by any non-empty run of whitespace splits off as the first piece and the run is dropped, so repeated spaces or tabs separate arguments like one space |
| CommandText.WordsOfJoin | main.py:242-243 | splitting words joined by single spaces gives the words back (so `/setpair btcusdt` has two parts) |
| CommandText.Upper | main.py:244 | `upper()` keeps the length, upper-cases each ASCII letter and yields an upper-case text |
| CommandText.UpperOfUpper | main.py:244 | upper-casing an upper-case text changes nothing |
| CommandText.Classify | main.py:213-325 | defines the if/elif dispatch in the source's order: exact texts for the flags and reports, a prefix test for the three setters; its properties are proved in CommandText.ClassifySetters, CommandText.ClassifyKeywords and CommandText.NotASetter |
| CommandText.ClassifySetters | main.py:241-265 | a text is dispatched to /setpair, /setcapital or /setlosscount if and only if it starts with that prefix |
| CommandText.ClassifyKeywords | main.py:213-325 | each exact command text (/cmd, /command, /buy, /sell, /stop, /start, /resetlosscount, /status, /pnl, /trades) reaches its own branch |
| CommandText.NotASetter | main.py:241-265 | a text whose second and third characters are not "se" starts with none of the setter prefixes |
| CommandText.Suffix | main.py:288 | `s[-n:]` has length min(n, len) and is the tail of s |
| CommandText.EndsWith | main.py:288 | defines `str.endswith`; used by CommandText.QuoteAsset, whose properties are proved in CommandText.QuoteAssetIsTail |
| CommandText.QuoteAsset | main.py:288 | defines the quote asset: the upper-cased last four characters after a USDT ending, else the last three; its properties are proved in CommandText.QuoteAssetIsTail and CommandText.AssetSplitRoundTrip |
| CommandText.RemoveAll | main.py:289 | defines `str.replace(pat, '')`; its properties are proved in CommandText.RemoveAllTrailing |
| CommandText.BaseAsset | main.py:289 | defines the base asset as the symbol with every occurrence of the quote removed; its properties are proved in CommandText.AssetSplitRoundTrip |
| CommandText.QuoteAssetIsTail | main.py:288 | the quote asset of an upper-case symbol is a tail of it |
| CommandText.RemoveAllTrailing | main.py:289 | `replace(pat, '')` on a text whose only occurrence of pat is at its end removes exactly that tail |
| CommandText.AssetSplitRoundTrip | main.py:288-289 | when the quote occurs only as the suffix, base + quote is the symbol again |
| Trading.Initial | main.py:173-189 | the state at the start of the loop satisfies the invariant |
| Trading.AutoResume | main.py:200-205 | defines the cooldown resume; its properties are proved in Trading.AutoResumeRule and Trading.AutoResumeKeepsInv |
| Trading.SwitchPair | main.py:241-253 | defines the /setpair branch; its properties are proved in Trading.SetPairRule |
| Trading.UpdateCapital | main.py:254-264 | defines the /setcapital branch; its properties are proved in Trading.SetCapitalRule |
| Trading.UpdateLossControl | main.py:265-277 | defines the /setlosscount branch; its properties are proved in Trading.SetLossCountRule |
| Trading.Execute | main.py:212-282 | defines the effect of each dispatched command on the loop's variables; its properties are proved in Trading.ApplyCommandKeepsInv and the command rules |
| Trading.ApplyCommand | main.py:212-282 | defines command processing as dispatch then effect; its properties are proved in Trading.ApplyCommandKeepsInv, Trading.ResetIsUnconditionalResume, Trading.SetCapitalRule, Trading.SetLossCountRule, Trading.SetPairRule and Trading.ReportsChangeNothing |
| Trading.MergeTick | main.py:338-346 | defines the live-price merge and its skip on a falsy price; its properties are proved in Trading.MergeTickRule and Trading.MergeTickKeepsInv |
| Trading.Refresh | main.py:348-351 | defines the periodic refresh, which keeps the window when the fetch is empty; its properties are proved in Trading.MergeTickKeepsInv |
| Trading.EntrySignal | main.py:360 | defines the buy condition; its properties are proved in Trading.EntryRule |
| Trading.PnlAt | main.py:368 | defines the open position's profit at a price; its properties are proved in Trading.ExitRule and Trading.GovernorRule |
| Trading.ExitSignal | main.py:369-371 | defines the sell condition against the profit target and stop-loss; its properties are proved in Trading.ExitRule |
| Trading.Open | main.py:359-366 | defines the BUY branch; its properties are proved in Trading.EntryRule and Trading.BuyKeepsLedger |
| Trading.Account | main.py:374-384 | defines the totals and the loss governor; its properties are proved in Trading.GovernorRule |
| Trading.Close | main.py:371-387 | defines the SELL branch; its properties are proved in Trading.ExitRule and Trading.SellKeepsLedger |
| Trading.TradeStep | main.py:358-387 | defines the trading step; its properties are proved in Trading.TradeStepKeepsInv, Trading.PausedChangesNothing and Trading.AtMostOneTransition |
| Trading.Prepare | main.py:196-351 | defines the part of a tick before the indicators: resume, command, merge and refresh; its properties are proved in Trading.TickKeepsInv |
| Trading.Tick | main.py:196-387 | defines a whole loop iteration; its properties are proved in Trading.TickKeepsInv and Trading.ForceBuyActsInSameTick |
| Trading.AutoResumeKeepsInv | main.py:200-205 | auto-resume keeps the invariant |
| Trading.ApplyCommandKeepsInv | main.py:212-282 | every command keeps the invariant; /setpair keeps the symbol upper-case and non-empty |
| Trading.MergeTickKeepsInv | main.py:338-351 | the merge and the periodic refresh keep the invariant |
| Trading.LedgerIsAlternating | main.py:364-385 | the recursive ledger invariant agrees, both ways, with the record-by-record reading: BUY exactly at even indices, only SELLs carry a pnl, all for the current symbol, each SELL settles the BUY before it |
| Trading.BuyKeepsLedger | main.py:359-366 | appending the BUY record while flat keeps the ledger matched to the new position |
| Trading.SellKeepsLedger | main.py:368-387 | appending the SELL record with its pnl keeps the ledger matched to no position |
| Trading.TradeStepKeepsInv | main.py:358-387 | the trading step keeps the invariant, including profit total >= 0 >= loss total |
| Trading.TickKeepsInv | main.py:196-387 | a whole tick keeps the invariant |
| Trading.PausedChangesNothing | main.py:358 | while paused the trading step changes nothing, and pending force flags stay set |
| Trading.EntryRule | main.py:359-366 | active and flat: a position opens if and only if force_buy or 47 <= rsi <= 52 with price > sar; it is (price, capital/price) with one BUY record and force_buy cleared; otherwise nothing changes |
| Trading.ExitRule | main.py:367-387 | active and holding: the position closes if and only if force_sell, pnl >= 1% of capital, pnl <= -0.09% of capital or rsi <= 43; then the trade count grows by one, one SELL record with the pnl is appended and force_sell is cleared; otherwise nothing changes |
| Trading.GovernorRule | main.py:374-384 | a gain adds to the profit total and resets the streak; a loss adds to the loss total, extends the streak, and pauses with pause time now once the streak reaches the limit |
| Trading.AtMostOneTransition | main.py:358-387 | a step appends at most one record and never replaces an open position |
| Trading.RoundTripScenario | main.py:358-387 | with capital 2: buy 0.02 at 100 with RSI 50 above the SAR, then sell at 101 for a pnl of 0.02, booked as profit, streak kept at 0 |
| Trading.AutoResumeRule | main.py:200-205 | auto-resume changes the state if and only if the bot is paused, the pause time is truthy and the cooldown has passed; it then reactivates, zeroes the streak and clears the pause time |
| Trading.ResetIsUnconditionalResume | main.py:278-282 | /resetlosscount, from any state, zeroes the loss streak, sets the bot active and clears the pause time, and changes nothing else; where an auto-resume is due this is the same state the resume gives |
| Trading.SetCapitalRule | main.py:254-264 | /setcapital changes the capital if and only if it has exactly one argument that parses above zero; otherwise nothing changes |
| Trading.SetLossCountRule | main.py:265-277 | /setlosscount changes the limit and the cooldown (minutes * 60) if and only if it has exactly two arguments that parse above zero; otherwise nothing changes |
| Trading.SetPairRule | main.py:241-253 | /setpair with exactly one argument and a truthy price probe sets the upper-cased symbol, reloads the window and clears the position and the ledger, leaving the totals; otherwise nothing changes |
| Trading.ReportsChangeNothing | main.py:213-335 | the help and report commands and unrecognized texts leave the state unchanged |
| Trading.MergeTickRule | main.py:338-346 | the tick proceeds if and only if the price is truthy; a skipped tick changes nothing; a merge changes only the last close, keeping the candle count and all other candles |
| Trading.ForceBuyActsInSameTick | main.py:207-366 | a /buy delivered to an active, flat bot with a window and a truthy price buys in the same tick at that price |
| Runtime.Bot.constructor | main.py:173-191 | from any bootstrap window, empty included, the fields start as the initial state, which is valid |
| Runtime.Bot.AutoResume | main.py:200-205 | updates the fields as Trading.AutoResume and keeps them valid |
| Runtime.Bot.SwitchPair | main.py:241-253 | the /setpair branch updates the fields as Trading.SwitchPair |
| Runtime.Bot.UpdateCapital | main.py:254-264 | the /setcapital branch updates the fields as Trading.UpdateCapital |
| Runtime.Bot.UpdateLossControl | main.py:265-277 | the /setlosscount branch updates the fields as Trading.UpdateLossControl |
| Runtime.Bot.Execute | main.py:212-282 | the dispatched command branch updates the fields as Trading.Execute |
| Runtime.Bot.ApplyCommand | main.py:212-282 | processing a command text updates the fields as Trading.ApplyCommand and keeps them valid |
| Runtime.Bot.MergeTick | main.py:338-346 | the merge updates the fields and the proceed flag as Trading.MergeTick and keeps them valid |
| Runtime.Bot.Refresh | main.py:348-351 | a non-empty refresh replaces the window; the fields stay valid |
| Runtime.Bot.Open | main.py:359-366 | the BUY branch updates the fields as Trading.Open |
| Runtime.Bot.Account | main.py:374-384 | the totals and governor update the fields as Trading.Account |
| Runtime.Bot.Close | main.py:371-387 | the SELL branch updates the fields as Trading.Close |
| Runtime.Bot.TradeStep | main.py:358-387 | the trading step updates the fields as Trading.TradeStep and keeps them valid |
| Runtime.Bot.Tick | main.py:196-389 | one loop iteration runs auto-resume, the command, the merge, the refresh, both indicator loops and the trading step; it updates the fields and reports the outcome as Trading.Tick, and keeps them valid |

## Left out

- Network I/O is not modelled; its results are parameters of the steps. This covers the Telegram send and poll, and the MEXC price, candle, balance and order requests (main.py:34-93, 155-168).
- Request signing and headers are not modelled: HMAC-SHA256 of the query string and the API-key header (main.py:156-162). They are foreign-library calls with no effect on the state.
- Floating-point behaviour is not modelled. All prices and averages are exact `real`s: no rounding, NaN or infinity, and no `{qty:.2f}` rounding of the order quantity (main.py:157).
- `float()` and `int()` on command arguments are not modelled; their outcomes are `Trading.CommandInputs` fields (`None` where they raise `ValueError`).
- Timing is not modelled: sleeping, the 5-second gate on command polling (main.py:208) and the `int(start) % 30` refresh cadence (main.py:348). Whether a command arrived and whether a refresh happened are inputs of `Trading.Tick`. A refresh that is not due is the empty window.
- The startup retry loop (main.py:185-191) is not modelled. It stops at the first fetch result that is not None, which may be empty; the constructor takes that window.
- The clock is the parameter `now`, used for both the resume check and the pause stamp of a tick.
- The wall-clock text in trade records is not modelled.
- All message and log text is not modelled: every `send_telegram_message` and `print`, and the formatting done by /cmd, /status, /pnl and /trades. The model only proves that these commands change nothing. The balance fetches and indicator calls made by /status are not modelled.
- Command delivery is not modelled: the poll keeps only the latest update, and strips and lower-cases its text (main.py:42-57). The model receives that text or none.
- Credential loading from the environment is not modelled (main.py:11-15).
- None and the empty list are one value: a window that is `None` and one that is empty are both the empty sequence. On such a window the source's indicator calls raise and the loop stops; the model ends that tick with `EmptyWindow` and does not evaluate the trading step.
- ParabolicSar.SarOf: requires a non-empty window, because the source raises an `IndexError` on `low[-1]` for an empty one.
- CommandText.Upper: upper-cases ASCII letters only, not the full Unicode mapping of `str.upper()`.
- The merge test `isinstance(candles[-1], list) and len(candles[-1]) > 4` is modelled as a non-empty window: every candle has the kline shape.
