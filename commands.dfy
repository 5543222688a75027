/** The text side of the command processor: whitespace splitting, upper-casing, the
    dispatch of a command text to its kind, and the quote/base split of a symbol. */
module CommandText {

  /** Python's str.isspace() set, which str.split() with no argument splits on. */
  predicate IsSpace(c: char)
  {
    || ('\t' <= c <= '\r')
    || ('\U{1C}' <= c <= '\U{1F}')
    || c == ' ' || c == '\U{85}' || c == '\U{A0}' || c == '\U{1680}'
    || ('\U{2000}' <= c <= '\U{200A}')
    || c == '\U{2028}' || c == '\U{2029}' || c == '\U{202F}' || c == '\U{205F}' || c == '\U{3000}'
  }

  /** A piece that split() can return: non-empty and free of whitespace. */
  predicate IsWord(w: string)
  {
    |w| > 0 && forall j :: 0 <= j < |w| ==> !IsSpace(w[j])
  }

  /** s with its leading whitespace removed. */
  function SkipSpaces(s: string): (r: string)
    ensures |r| <= |s| && r == s[|s| - |r|..]
    ensures r != [] ==> !IsSpace(r[0])
  {
    if s != [] && IsSpace(s[0]) then SkipSpaces(s[1..]) else s
  }

  /** Length of the longest whitespace-free prefix of s. */
  function WordLength(s: string): (n: nat)
    ensures n <= |s|
    ensures forall j :: 0 <= j < n ==> !IsSpace(s[j])
    ensures n < |s| ==> IsSpace(s[n])
  {
    if s == [] || IsSpace(s[0]) then 0 else 1 + WordLength(s[1..])
  }

  lemma WordPrefix(t: string, n: nat)
    requires 0 < n <= |t|
    requires forall j :: 0 <= j < n ==> !IsSpace(t[j])
    ensures IsWord(t[..n])
  {
  }

  lemma ConsWords(w: string, rest: seq<string>)
    requires IsWord(w)
    requires forall k :: 0 <= k < |rest| ==> IsWord(rest[k])
    ensures forall k :: 0 <= k < |[w] + rest| ==> IsWord(([w] + rest)[k])
  {
  }

  /** str.split(): the maximal runs of non-whitespace characters, in order. */
  function Words(s: string): (ws: seq<string>)
    ensures forall k :: 0 <= k < |ws| ==> IsWord(ws[k])
    decreases |s|
  {
    var t := SkipSpaces(s);
    if t == [] then []
    else
      var n := WordLength(t);
      assert n > 0;
      WordPrefix(t, n);
      var rest := Words(t[n..]);
      ConsWords(t[..n], rest);
      [t[..n]] + rest
  }

  /** The words joined with one space between neighbours (' '.join). */
  function JoinSpaced(ws: seq<string>): string
  {
    if ws == [] then ""
    else if |ws| == 1 then ws[0]
    else ws[0] + " " + JoinSpaced(ws[1..])
  }

  lemma {:induction false} WordLengthOfWord(w: string, rest: string)
    requires IsWord(w)
    requires rest == [] || IsSpace(rest[0])
    ensures WordLength(w + rest) == |w|
    decreases |w|
  {
    if |w| > 1 {
      assert (w + rest)[1..] == w[1..] + rest;
      WordLengthOfWord(w[1..], rest);
    } else {
      assert (w + rest)[1..] == rest;
    }
  }

  /** A word followed by nothing or by whitespace is split off first. */
  lemma WordsOfWordThen(w: string, rest: string)
    requires IsWord(w)
    requires rest == [] || IsSpace(rest[0])
    ensures Words(w + rest) == [w] + Words(rest)
  {
    var s := w + rest;
    assert s[0] == w[0];
    assert SkipSpaces(s) == s;
    WordLengthOfWord(w, rest);
    assert s[..|w|] == w;
    assert s[|w|..] == rest;
  }

  /** A leading space does not change the split. */
  lemma WordsSkipsSpace(x: string)
    ensures Words(" " + x) == Words(x)
  {
    var s := " " + x;
    assert s[1..] == x;
    assert SkipSpaces(s) == SkipSpaces(x);
  }

  /** Any run of whitespace, empty or not, in front of a text does not change the split. */
  lemma {:induction false} WordsSkipsSpaceRun(sp: string, x: string)
    requires forall j :: 0 <= j < |sp| ==> IsSpace(sp[j])
    ensures Words(sp + x) == Words(x)
    decreases |sp|
  {
    if sp == [] {
      assert sp + x == x;
    } else {
      var s := sp + x;
      assert s[0] == sp[0];
      assert s[1..] == sp[1..] + x;
      assert SkipSpaces(s) == SkipSpaces(sp[1..] + x);
      WordsSkipsSpaceRun(sp[1..], x);
    }
  }

  /** A word followed by any non-empty run of whitespace is split off first, and the run
      is dropped, so tabs and repeated spaces separate arguments like one space. */
  lemma WordsOfSeparated(w: string, sp: string, rest: string)
    requires IsWord(w)
    requires |sp| > 0 && forall j :: 0 <= j < |sp| ==> IsSpace(sp[j])
    ensures Words(w + sp + rest) == [w] + Words(rest)
  {
    assert w + sp + rest == w + (sp + rest);
    assert (sp + rest)[0] == sp[0];
    WordsOfWordThen(w, sp + rest);
    WordsSkipsSpaceRun(sp, rest);
  }

  /** Splitting a space-joined list of words gives the words back. */
  lemma {:induction false} WordsOfJoin(ws: seq<string>)
    requires forall k :: 0 <= k < |ws| ==> IsWord(ws[k])
    ensures Words(JoinSpaced(ws)) == ws
    decreases |ws|
  {
    if |ws| == 1 {
      WordsOfWordThen(ws[0], "");
      assert ws[0] + "" == ws[0];
      assert Words("") == [];
    } else if |ws| > 1 {
      var tail := ws[1..];
      assert ws == [ws[0]] + tail;
      assert forall k :: 0 <= k < |tail| ==> IsWord(tail[k]) by {
        forall k | 0 <= k < |tail| ensures IsWord(tail[k]) { assert tail[k] == ws[k + 1]; }
      }
      var j := JoinSpaced(tail);
      assert JoinSpaced(ws) == ws[0] + " " + j;
      WordsOfSeparated(ws[0], " ", j);
      WordsOfJoin(tail);
    }
  }

  /** ASCII upper-casing of one character. */
  function UpperChar(c: char): char
  {
    if 'a' <= c <= 'z' then (c as int - 32) as char else c
  }

  predicate IsUpper(s: string)
  {
    forall i :: 0 <= i < |s| ==> !('a' <= s[i] <= 'z')
  }

  /** str.upper() on ASCII letters: same length, each letter upper-cased. */
  function Upper(s: string): (r: string)
    ensures |r| == |s|
    ensures forall i :: 0 <= i < |s| ==> r[i] == UpperChar(s[i])
    ensures IsUpper(r)
  {
    if s == [] then [] else [UpperChar(s[0])] + Upper(s[1..])
  }

  /** Upper-casing an upper-case string changes nothing. */
  lemma UpperOfUpper(s: string)
    requires IsUpper(s)
    ensures Upper(s) == s
  {
    assert forall i :: 0 <= i < |s| ==> Upper(s)[i] == s[i];
  }

  // ---------------------------------------------------------------------------
  // Dispatch

  /** The kinds of command the processor tells apart, in the order it tests them. */
  datatype Command =
    | Help | ForceBuy | ForceSell | Stop | Start
    | SetPair | SetCapital | SetLossCount | ResetLossCount
    | Status | Pnl | Trades | Unrecognized

  /** The if/elif chain on the (already lower-cased and stripped) command text: exact
      matches, except the three setters, which match on a prefix. */
  function Classify(cmd: string): Command
  {
    if cmd == "/cmd" || cmd == "/command" then Help
    else if cmd == "/buy" then ForceBuy
    else if cmd == "/sell" then ForceSell
    else if cmd == "/stop" then Stop
    else if cmd == "/start" then Start
    else if "/setpair" <= cmd then SetPair
    else if "/setcapital" <= cmd then SetCapital
    else if "/setlosscount" <= cmd then SetLossCount
    else if cmd == "/resetlosscount" then ResetLossCount
    else if cmd == "/status" then Status
    else if cmd == "/pnl" then Pnl
    else if cmd == "/trades" then Trades
    else Unrecognized
  }

  /** The setters are exactly the texts with their prefix, whatever follows it. */
  lemma ClassifySetters(cmd: string)
    ensures Classify(cmd) == SetPair <==> "/setpair" <= cmd
    ensures Classify(cmd) == SetCapital <==> "/setcapital" <= cmd
    ensures Classify(cmd) == SetLossCount <==> "/setlosscount" <= cmd
  {
    if "/setpair" <= cmd {
      assert cmd[1] == 's' && cmd != "/command";
    }
    if "/setcapital" <= cmd {
      assert cmd[1] == 's' && cmd[4] == 'c';
      assert !("/setpair" <= cmd);
    }
    if "/setlosscount" <= cmd {
      assert cmd[1] == 's' && cmd[4] == 'l';
      assert !("/setpair" <= cmd) && !("/setcapital" <= cmd);
    }
  }

  /** Each exact command text selects its own kind. */
  lemma ClassifyKeywords()
    ensures Classify("/cmd") == Help && Classify("/command") == Help
    ensures Classify("/buy") == ForceBuy && Classify("/sell") == ForceSell
    ensures Classify("/stop") == Stop && Classify("/start") == Start
    ensures Classify("/resetlosscount") == ResetLossCount
    ensures Classify("/status") == Status && Classify("/pnl") == Pnl && Classify("/trades") == Trades
  {
    NotASetter("/resetlosscount");
    NotASetter("/status");
    NotASetter("/pnl");
    NotASetter("/trades");
  }

  lemma NotASetter(cmd: string)
    requires |cmd| > 2 && (cmd[1] != 's' || cmd[2] != 'e')
    ensures !("/setpair" <= cmd) && !("/setcapital" <= cmd) && !("/setlosscount" <= cmd)
  {
  }

  // ---------------------------------------------------------------------------
  // Quote and base asset of a symbol

  /** Python's s[-n:]: the last n characters, or all of s when it is shorter. */
  function Suffix(s: string, n: nat): (r: string)
    ensures |r| == if |s| <= n then |s| else n
    ensures r == s[|s| - |r|..]
  {
    if |s| <= n then s else s[|s| - n..]
  }

  /** str.endswith(). */
  predicate EndsWith(s: string, suffix: string)
  {
    |suffix| <= |s| && s[|s| - |suffix|..] == suffix
  }

  /** The quote asset: the last 4 characters when the symbol ends in USDT, otherwise the
      last 3, upper-cased. */
  function QuoteAsset(symbol: string): string
  {
    if EndsWith(symbol, "USDT") then Upper(Suffix(symbol, 4)) else Upper(Suffix(symbol, 3))
  }

  /** str.replace(pat, ''): every non-overlapping occurrence of pat, scanning from the
      left, removed; nothing happens when pat is empty. */
  function RemoveAll(s: string, pat: string): string
    decreases |s|
  {
    if pat == [] || s == [] then s
    else if pat <= s then RemoveAll(s[|pat|..], pat)
    else [s[0]] + RemoveAll(s[1..], pat)
  }

  /** The base asset: the symbol with the quote asset removed. */
  function BaseAsset(symbol: string): string
  {
    RemoveAll(symbol, QuoteAsset(symbol))
  }

  /** pat occurs in s at no position before its last |pat| characters. */
  ghost predicate OnlyAtEnd(s: string, pat: string)
  {
    forall i :: 0 <= i < |s| - |pat| ==> !(pat <= s[i..])
  }

  lemma {:induction false} RemoveAllTrailing(b: string, pat: string)
    requires pat != []
    requires OnlyAtEnd(b + pat, pat)
    ensures RemoveAll(b + pat, pat) == b
    decreases |b|
  {
    var s := b + pat;
    if b == [] {
      assert s == pat;
      assert s[|pat|..] == [];
    } else {
      assert !(pat <= s[0..]);
      assert s[0..] == s;
      assert s[1..] == b[1..] + pat;
      forall i | 0 <= i < |s[1..]| - |pat|
        ensures !(pat <= s[1..][i..])
      {
        assert s[1..][i..] == s[i + 1..];
      }
      RemoveAllTrailing(b[1..], pat);
    }
  }

  /** The quote asset of an upper-case symbol is a tail of it. */
  lemma QuoteAssetIsTail(symbol: string)
    requires IsUpper(symbol)
    ensures var q := QuoteAsset(symbol); |q| <= |symbol| && q == symbol[|symbol| - |q|..]
  {
    var q := Suffix(symbol, if EndsWith(symbol, "USDT") then 4 else 3);
    assert q == symbol[|symbol| - |q|..];
    UpperOfUpper(q);
  }

  /** For an upper-case symbol whose quote asset occurs only as its suffix, base and quote
      put back together give the symbol. */
  lemma AssetSplitRoundTrip(symbol: string)
    requires IsUpper(symbol) && |symbol| > 0
    requires OnlyAtEnd(symbol, QuoteAsset(symbol))
    ensures BaseAsset(symbol) + QuoteAsset(symbol) == symbol
  {
    var q := QuoteAsset(symbol);
    QuoteAssetIsTail(symbol);
    var b := symbol[..|symbol| - |q|];
    assert b + q == symbol;
    assert |q| > 0 by {
      assert |Suffix(symbol, if EndsWith(symbol, "USDT") then 4 else 3)| > 0;
    }
    assert OnlyAtEnd(b + q, q);
    RemoveAllTrailing(b, q);
    assert BaseAsset(symbol) == RemoveAll(b + q, q);
  }
}
