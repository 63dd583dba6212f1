/** The guards and the fid-list parser of the admin page's "broadcast to
    selected fids" action. */
module AdminPage {
  import opened Common

  // ---------------------------------------------------------------------
  // Trimming
  // ---------------------------------------------------------------------

  function TrimEnd(s: string): (t: string)
    ensures t == [] || !IsJsSpace(t[|t| - 1])
    ensures |t| <= |s| && t == s[..|t|]
    ensures forall i :: |t| <= i < |s| ==> IsJsSpace(s[i])
  {
    if s != [] && IsJsSpace(s[|s| - 1]) then TrimEnd(s[..|s| - 1]) else s
  }

  /** String.prototype.trim: white space and line breaks off both ends. */
  function Trim(s: string): string {
    TrimEnd(TrimStart(s))
  }

  /** The input trims to "" exactly when it is all white space. */
  lemma {:induction false} TrimEmptyIffBlank(s: string)
    ensures Trim(s) == [] <==> forall i :: 0 <= i < |s| ==> IsJsSpace(s[i])
  {
    var t := TrimStart(s);
    TrimStartBlank(s);
    TrimEndBlank(t);
    if t != [] {
      assert t[0] == s[|s| - |t|];
    }
  }

  lemma {:induction false} TrimStartBlank(s: string)
    ensures forall i :: 0 <= i < |s| - |TrimStart(s)| ==> IsJsSpace(s[i])
  {
    if s != [] && IsJsSpace(s[0]) {
      TrimStartBlank(s[1..]);
      forall i | 1 <= i < |s| - |TrimStart(s)| ensures IsJsSpace(s[i]) { assert s[i] == s[1..][i - 1]; }
    }
  }

  lemma {:induction false} TrimEndBlank(s: string)
    ensures TrimEnd(s) == [] <==> forall i :: 0 <= i < |s| ==> IsJsSpace(s[i])
  {
    if s != [] && IsJsSpace(s[|s| - 1]) {
      var init := s[..|s| - 1];
      TrimEndBlank(init);
      if forall i :: 0 <= i < |init| ==> IsJsSpace(init[i]) {
        forall i | 0 <= i < |s| ensures IsJsSpace(s[i]) {
          if i < |s| - 1 { assert s[i] == init[i]; }
        }
      }
    } else if s != [] {
      assert !IsJsSpace(s[|s| - 1]);
    }
  }

  // ---------------------------------------------------------------------
  // Tokens
  // ---------------------------------------------------------------------

  /** The characters of the class [,\s]. */
  predicate IsSeparator(c: char) {
    c == ',' || IsJsSpace(c)
  }

  predicate NoSeparator(t: string) {
    forall i :: 0 <= i < |t| ==> !IsSeparator(t[i])
  }

  /** What is left once the leading separators are dropped. */
  function SkipSeparators(s: string): (r: string)
    ensures |r| <= |s| && r == s[|s| - |r|..]
    ensures r == [] || !IsSeparator(r[0])
  {
    if s != [] && IsSeparator(s[0]) then SkipSeparators(s[1..]) else s
  }

  /** Everything skipped is a separator. */
  lemma {:induction false} SkippedAreSeparators(s: string)
    ensures forall i :: 0 <= i < |s| - |SkipSeparators(s)| ==> IsSeparator(s[i])
  {
    if s != [] && IsSeparator(s[0]) {
      SkippedAreSeparators(s[1..]);
      forall i | 1 <= i < |s| - |SkipSeparators(s)| ensures IsSeparator(s[i]) {
        assert s[i] == s[1..][i - 1];
      }
    }
  }

  /** The length of the leading run of non-separators. */
  function WordLength(s: string): (n: nat)
    ensures n <= |s|
    ensures s != [] && !IsSeparator(s[0]) ==> n > 0
  {
    if s == [] || IsSeparator(s[0]) then 0 else 1 + WordLength(s[1..])
  }

  /** The run is a word, and it is maximal. */
  lemma {:induction false} WordLengthIsMaximal(s: string)
    ensures NoSeparator(s[..WordLength(s)])
    ensures WordLength(s) < |s| ==> IsSeparator(s[WordLength(s)])
  {
    if s != [] && !IsSeparator(s[0]) {
      WordLengthIsMaximal(s[1..]);
      var n := WordLength(s);
      forall i | 0 <= i < n ensures !IsSeparator(s[..n][i]) {
        if i > 0 { assert s[..n][i] == s[1..][..n - 1][i - 1]; }
      }
      if n < |s| { assert s[n] == s[1..][n - 1]; }
    }
  }

  /** split(/[,\s]+/) followed by filter(f => f): the maximal runs of
      non-separators, in order. */
  function Tokens(s: string): seq<string>
    decreases |s|
  {
    var u := SkipSeparators(s);
    if u == [] then []
    else
      var n := WordLength(u);
      [u[..n]] + Tokens(u[n..])
  }

  /** Texts that are all non-empty words. */
  predicate Words(ws: seq<string>) {
    forall j :: 0 <= j < |ws| ==> ws[j] != [] && NoSeparator(ws[j])
  }

  /** Every token is a non-empty word. */
  lemma {:induction false} TokensAreWords(s: string)
    ensures Words(Tokens(s))
    decreases |s|
  {
    var u := SkipSeparators(s);
    if u != [] {
      var n := WordLength(u);
      WordLengthIsMaximal(u);
      TokensAreWords(u[n..]);
      WordsCons(u[..n], Tokens(u[n..]));
    }
  }

  lemma WordsCons(w: string, ws: seq<string>)
    requires w != [] && NoSeparator(w) && Words(ws)
    ensures Words([w] + ws)
  {
    forall j | 0 <= j < |ws| + 1 ensures ([w] + ws)[j] != [] && NoSeparator(([w] + ws)[j]) {
      if j > 0 { assert ([w] + ws)[j] == ws[j - 1]; }
    }
  }

  /** The input with every separator removed. */
  function Strip(s: string): string {
    if s == [] then []
    else if IsSeparator(s[0]) then Strip(s[1..])
    else [s[0]] + Strip(s[1..])
  }

  function Concat(ts: seq<string>): string {
    if ts == [] then [] else ts[0] + Concat(ts[1..])
  }

  lemma {:induction false} StripAppend(a: string, b: string)
    ensures Strip(a + b) == Strip(a) + Strip(b)
  {
    if a == [] {
      assert a + b == b;
    } else {
      assert (a + b)[0] == a[0] && (a + b)[1..] == a[1..] + b;
      StripAppend(a[1..], b);
    }
  }

  lemma {:induction false} StripOfSeparators(s: string)
    requires forall i :: 0 <= i < |s| ==> IsSeparator(s[i])
    ensures Strip(s) == []
  {
    if s != [] {
      StripOfSeparators(s[1..]);
    }
  }

  lemma {:induction false} StripOfWord(s: string)
    requires NoSeparator(s)
    ensures Strip(s) == s
  {
    if s != [] {
      assert NoSeparator(s[1..]) by {
        forall i | 0 <= i < |s| - 1 ensures !IsSeparator(s[1..][i]) { assert s[1..][i] == s[i + 1]; }
      }
      StripOfWord(s[1..]);
    }
  }

  /** Dropping the leading separators changes nothing once separators are
      removed. */
  lemma StripSkipped(s: string)
    ensures Strip(SkipSeparators(s)) == Strip(s)
  {
    var u := SkipSeparators(s);
    var pre := s[..|s| - |u|];
    SkippedAreSeparators(s);
    assert forall i :: 0 <= i < |pre| ==> IsSeparator(pre[i]);
    StripOfSeparators(pre);
    assert pre + u == s;
    StripAppend(pre, u);
  }

  /** The leading word survives the removal of separators whole. */
  lemma StripWord(u: string)
    ensures Strip(u) == u[..WordLength(u)] + Strip(u[WordLength(u)..])
  {
    var n := WordLength(u);
    WordLengthIsMaximal(u);
    assert u == u[..n] + u[n..];
    StripAppend(u[..n], u[n..]);
    StripOfWord(u[..n]);
  }

  /** The tokens hold every non-separator character of the input, in order,
      and nothing else. */
  lemma {:induction false} TokensCoverInput(s: string)
    ensures Concat(Tokens(s)) == Strip(s)
    decreases |s|
  {
    var u := SkipSeparators(s);
    StripSkipped(s);
    if u != [] {
      var n := WordLength(u);
      StripWord(u);
      TokensCoverInput(u[n..]);
      assert Tokens(s) == [u[..n]] + Tokens(u[n..]);
      assert Concat(Tokens(s)) == u[..n] + Concat(Tokens(u[n..]));
    }
  }

  /** fidArray.join(', '), for texts: the list the confirmation message
      shows. */
  function Join(ws: seq<string>): string {
    if ws == [] then []
    else if |ws| == 1 then ws[0]
    else ws[0] + ", " + Join(ws[1..])
  }

  /** A leading ", " is skipped like any other run of separators. */
  lemma TokensAfterComma(rest: string)
    ensures Tokens(", " + rest) == Tokens(rest)
  {
    assert ", " + rest == [','] + ([' '] + rest);
    TokensAfterSeparator(',', [' '] + rest);
    TokensAfterSeparator(' ', rest);
  }

  /** A leading separator is skipped. */
  lemma TokensAfterSeparator(c: char, rest: string)
    requires IsSeparator(c)
    ensures Tokens([c] + rest) == Tokens(rest)
  {
    assert ([c] + rest)[1..] == rest;
    assert SkipSeparators([c] + rest) == SkipSeparators(rest);
  }

  /** A word followed by a separator or by nothing is read in one piece. */
  lemma WordThenSeparator(w: string, rest: string)
    requires w != [] && NoSeparator(w)
    requires rest == [] || IsSeparator(rest[0])
    ensures SkipSeparators(w + rest) == w + rest
    ensures WordLength(w + rest) == |w|
  {
    var s := w + rest;
    assert s[0] == w[0];
    WordLengthOfWord(w, rest);
  }

  lemma {:induction false} WordLengthOfWord(w: string, rest: string)
    requires NoSeparator(w)
    requires rest == [] || IsSeparator(rest[0])
    ensures WordLength(w + rest) == |w|
  {
    if w == [] {
      assert w + rest == rest;
    } else {
      assert (w + rest)[0] == w[0] && (w + rest)[1..] == w[1..] + rest;
      assert NoSeparator(w[1..]) by {
        forall i | 0 <= i < |w| - 1 ensures !IsSeparator(w[1..][i]) { assert w[1..][i] == w[i + 1]; }
      }
      WordLengthOfWord(w[1..], rest);
    }
  }

  /** The word is the first token; the tokens of the rest follow. */
  lemma TokensOfWord(w: string, rest: string)
    requires w != [] && NoSeparator(w)
    requires rest == [] || IsSeparator(rest[0])
    ensures Tokens(w + rest) == [w] + Tokens(rest)
  {
    var s := w + rest;
    WordThenSeparator(w, rest);
    assert s[..|w|] == w && s[|w|..] == rest;
  }

  /** Joining separator-free words with commas and splitting again gives
      the same words back. */
  lemma {:induction false} TokensOfJoin(ws: seq<string>)
    requires Words(ws)
    ensures Tokens(Join(ws)) == ws
  {
    if |ws| <= 1 {
      TokensOfShortJoin(ws);
    } else {
      TokensOfJoinStep(ws);
      WordsTail(ws);
      TokensOfJoin(ws[1..]);
      HeadAndTail(ws);
    }
  }

  lemma WordsTail(ws: seq<string>)
    requires ws != [] && Words(ws)
    ensures Words(ws[1..])
  {
    forall j | 0 <= j < |ws| - 1 ensures ws[1..][j] != [] && NoSeparator(ws[1..][j]) {
      assert ws[1..][j] == ws[j + 1];
    }
  }

  lemma HeadAndTail<T>(xs: seq<T>)
    requires xs != []
    ensures xs == [xs[0]] + xs[1..]
  {
  }

  lemma TokensOfShortJoin(ws: seq<string>)
    requires |ws| <= 1 && Words(ws)
    ensures Tokens(Join(ws)) == ws
  {
    if |ws| == 1 {
      TokensOfWord(ws[0], []);
      assert ws[0] + [] == ws[0];
      HeadAndTail(ws);
    }
  }

  lemma TokensOfJoinStep(ws: seq<string>)
    requires |ws| > 1 && ws[0] != [] && NoSeparator(ws[0])
    ensures Tokens(Join(ws)) == [ws[0]] + Tokens(Join(ws[1..]))
  {
    var rest := ", " + Join(ws[1..]);
    assert Join(ws) == ws[0] + rest;
    TokensOfWord(ws[0], rest);
    TokensAfterComma(Join(ws[1..]));
  }

  // ---------------------------------------------------------------------
  // Fids
  // ---------------------------------------------------------------------

  /** A token has nothing for trim to remove. */
  lemma TrimKeepsToken(t: string)
    requires NoSeparator(t)
    ensures Trim(t) == t
  {
    if t != [] {
      assert !IsJsSpace(t[0]) && !IsJsSpace(t[|t| - 1]);
    }
  }

  /** .map(f => parseInt(f)) over the trimmed tokens; None is NaN. */
  function Parsed(ts: seq<string>): seq<Option<int>> {
    seq(|ts|, j requires 0 <= j < |ts| => ParseInt(Trim(ts[j])))
  }

  /** .filter(f => !isNaN(f)): the numbers, in order. */
  function Numbers(xs: seq<Option<int>>): (r: seq<int>)
    ensures |r| <= |xs|
  {
    if xs == [] then []
    else if xs[0].None? then Numbers(xs[1..])
    else [xs[0].value] + Numbers(xs[1..])
  }

  /** The parsed list, from the text box to the fids sent. */
  function ParseFids(input: string): seq<int> {
    Numbers(Parsed(Tokens(input)))
  }

  /** Filtering keeps the order: the numbers of two runs of values are the
      numbers of the first followed by those of the second. */
  lemma {:induction false} NumbersAppend(a: seq<Option<int>>, b: seq<Option<int>>)
    ensures Numbers(a + b) == Numbers(a) + Numbers(b)
  {
    if a == [] {
      assert a + b == b;
    } else {
      assert (a + b)[0] == a[0] && (a + b)[1..] == a[1..] + b;
      NumbersAppend(a[1..], b);
    }
  }

  /** A number is kept exactly when some value is that number. */
  lemma {:induction false} NumbersMembers(xs: seq<Option<int>>, n: int)
    ensures n in Numbers(xs) <==> Some(n) in xs
  {
    if xs != [] {
      NumbersMembers(xs[1..], n);
      assert xs == [xs[0]] + xs[1..];
    }
  }

  /** Values that are all numbers are kept one for one, repeats included. */
  lemma {:induction false} NumbersOfAllSome(xs: seq<Option<int>>, fids: seq<int>)
    requires |xs| == |fids| && forall j :: 0 <= j < |xs| ==> xs[j] == Some(fids[j])
    ensures Numbers(xs) == fids
  {
    if xs != [] {
      NumbersOfAllSome(xs[1..], fids[1..]);
      assert fids == [fids[0]] + fids[1..];
    }
  }

  /** Every fid of the parsed list comes from a token, and every token that
      parses contributes its fid. */
  lemma TokenFidsMembers(ts: seq<string>, n: int)
    ensures n in Numbers(Parsed(ts)) <==> exists j :: 0 <= j < |ts| && ParseInt(Trim(ts[j])) == Some(n)
  {
    var ps := Parsed(ts);
    NumbersMembers(ps, n);
    if Some(n) in ps {
      var j :| 0 <= j < |ps| && ps[j] == Some(n);
      assert ParseInt(Trim(ts[j])) == Some(n);
    }
    forall j | 0 <= j < |ts| && ParseInt(Trim(ts[j])) == Some(n) ensures Some(n) in ps {
      assert ps[j] == Some(n);
    }
  }

  /** fids.join(', ') before the join: each fid's decimal text. */
  function FidTexts(fids: seq<int>): seq<string> {
    seq(|fids|, j requires 0 <= j < |fids| => IntToString(fids[j]))
  }

  /** The fid list the confirmation message shows, typed back into the
      box, parses to the same list, repeats and order included. */
  lemma FidListRoundTrip(fids: seq<int>)
    ensures ParseFids(Join(FidTexts(fids))) == fids
  {
    var ts := FidTexts(fids);
    forall j | 0 <= j < |ts| ensures ts[j] != [] && NoSeparator(ts[j]) && ParseInt(Trim(ts[j])) == Some(fids[j]) {
      FidTextIsToken(fids[j]);
    }
    assert Words(ts);
    TokensOfJoin(ts);
    var ps := Parsed(ts);
    assert forall j :: 0 <= j < |ps| ==> ps[j] == Some(fids[j]);
    NumbersOfAllSome(ps, fids);
  }

  /** A fid's decimal text is a single token that reads back as the fid. */
  lemma FidTextIsToken(n: int)
    ensures IntToString(n) != [] && NoSeparator(IntToString(n))
    ensures ParseInt(Trim(IntToString(n))) == Some(n)
  {
    var t := IntToString(n);
    assert forall i :: 0 <= i < |t| ==> IsDigit(t[i]) || t[i] == '-';
    TrimKeepsToken(t);
    ParseIntOfIntToString(n);
  }

  /** A blank input has no tokens, so the second guard only rejects what
      parsing would have rejected anyway. */
  lemma BlankHasNoFids(input: string)
    requires Trim(input) == []
    ensures Tokens(input) == [] && ParseFids(input) == []
  {
    TrimEmptyIffBlank(input);
    var u := SkipSeparators(input);
    if u != [] {
      assert false;
    }
  }

  // ---------------------------------------------------------------------
  // handleBroadcastToSelected
  // ---------------------------------------------------------------------

  datatype Outcome =
    | NeedTitleAndBody   // "Please enter title and body"
    | NeedFids           // "Please enter FID(s)"
    | NoValidFids        // "No valid FIDs found"
    | Confirm(fids: seq<int>)

  /** The guards before the confirmation dialog: a request can only follow
      a Confirm, which needs a title, a body and at least one parsed fid. */
  function HandleBroadcastToSelected(title: string, body: string, input: string): (r: Outcome)
    ensures r == NeedTitleAndBody <==> title == [] || body == []
    ensures r == NeedFids <==> title != [] && body != [] && forall i :: 0 <= i < |input| ==> IsJsSpace(input[i])
    ensures r.Confirm? <==> title != [] && body != [] && ParseFids(input) != []
    ensures r.Confirm? ==> r.fids == ParseFids(input)
  {
    TrimEmptyIffBlank(input);
    if title == [] || body == [] then NeedTitleAndBody
    else if Trim(input) == [] then (BlankHasNoFids(input); NeedFids)
    else
      var fids := ParseFids(input);
      if |fids| == 0 then NoValidFids else Confirm(fids)
  }
}
