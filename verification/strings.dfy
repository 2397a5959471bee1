/**
 * Text utilities of the model loader: the two `split` overloads, the
 * character search `find`, the `std::string::find` searches the face parser
 * relies on, whitespace tokenising as done by `operator>>`, and the numeric
 * decoders standing for `std::stoi` and `>> float`.
 *
 * A search that finds nothing returns -1. For `std::string::find` this is
 * `npos`, whose value is the all-ones size_t; -1 behaves the same under the
 * `+ 1` the parser applies to it (both wrap to 0).
 */
module Strings {
  import opened Wrappers

  // ---------------------------------------------------------------------
  // Tokens: maximal runs of non-separator characters
  // ---------------------------------------------------------------------

  /** True when no character of `s` is a separator. */
  predicate SepFree(s: string, seps: set<char>) {
    forall i :: 0 <= i < |s| ==> s[i] !in seps
  }

  /** Length of the longest separator-free prefix of `s`. */
  function RunLength(s: string, seps: set<char>): (n: nat)
    ensures n <= |s|
    ensures SepFree(s[..n], seps)
    ensures n < |s| ==> s[n] in seps
  {
    if s == [] || s[0] in seps then 0 else 1 + RunLength(s[1..], seps)
  }

  /**
   * The reference tokeniser: the maximal separator-free runs of `s`, left to
   * right. Both `split` overloads and `operator>>` word extraction are
   * characterised by it.
   */
  function Tokens(s: string, seps: set<char>): seq<string>
    decreases |s|
  {
    if s == [] then []
    else if s[0] in seps then Tokens(s[1..], seps)
    else
      var n := RunLength(s, seps);
      [s[..n]] + Tokens(s[n..], seps)
  }

  /** Concatenation of a sequence of strings. */
  function Concat(ts: seq<string>): string {
    if ts == [] then [] else ts[0] + Concat(ts[1..])
  }

  /** `s` with every separator character removed. */
  function Strip(s: string, seps: set<char>): string {
    if s == [] then []
    else if s[0] in seps then Strip(s[1..], seps)
    else [s[0]] + Strip(s[1..], seps)
  }

  /** Strings joined with one separator character between neighbours. */
  function Join(ts: seq<string>, d: char): string {
    if ts == [] then []
    else if |ts| == 1 then ts[0]
    else ts[0] + [d] + Join(ts[1..], d)
  }

  lemma {:induction false} StripAppend(a: string, b: string, seps: set<char>)
    ensures Strip(a + b, seps) == Strip(a, seps) + Strip(b, seps)
    decreases |a|
  {
    if a == [] {
      assert a + b == b;
    } else {
      assert (a + b)[1..] == a[1..] + b;
      StripAppend(a[1..], b, seps);
    }
  }

  lemma {:induction false} StripSepFree(a: string, seps: set<char>)
    requires SepFree(a, seps)
    ensures Strip(a, seps) == a
    decreases |a|
  {
    if a != [] {
      StripSepFree(a[1..], seps);
      assert a == [a[0]] + a[1..];
    }
  }

  /** Every token is non-empty and separator-free, and together they are `s` with its separators removed. */
  lemma {:induction false} TokensShape(s: string, seps: set<char>)
    ensures forall k :: 0 <= k < |Tokens(s, seps)| ==>
      |Tokens(s, seps)[k]| > 0 && SepFree(Tokens(s, seps)[k], seps)
    ensures Concat(Tokens(s, seps)) == Strip(s, seps)
    decreases |s|
  {
    if s == [] {
    } else if s[0] in seps {
      TokensShape(s[1..], seps);
    } else {
      var n := RunLength(s, seps);
      TokensShape(s[n..], seps);
      var rest := Tokens(s[n..], seps);
      assert Tokens(s, seps) == [s[..n]] + rest;
      assert ([s[..n]] + rest)[1..] == rest;
      assert s == s[..n] + s[n..];
      StripAppend(s[..n], s[n..], seps);
      StripSepFree(s[..n], seps);
    }
  }

  lemma {:induction false} RunLengthOfWord(t: string, rest: string, seps: set<char>)
    requires SepFree(t, seps)
    requires rest == [] || rest[0] in seps
    ensures RunLength(t + rest, seps) == |t|
    decreases |t|
  {
    if t != [] {
      assert (t + rest)[1..] == t[1..] + rest;
      RunLengthOfWord(t[1..], rest, seps);
    } else {
      assert t + rest == rest;
    }
  }

  /** A non-empty word followed by the end or by a separator is one token. */
  lemma TokensOfWordThen(t: string, rest: string, seps: set<char>)
    requires |t| > 0 && SepFree(t, seps)
    requires rest == [] || rest[0] in seps
    ensures Tokens(t + rest, seps) == [t] + Tokens(rest, seps)
  {
    RunLengthOfWord(t, rest, seps);
    assert (t + rest)[..|t|] == t;
    assert (t + rest)[|t|..] == rest;
  }

  /** Splitting the join of separator-free, non-empty words gives the words back. */
  lemma {:induction false} TokensOfJoin(ts: seq<string>, d: char, seps: set<char>)
    requires d in seps
    requires forall k :: 0 <= k < |ts| ==> |ts[k]| > 0 && SepFree(ts[k], seps)
    ensures Tokens(Join(ts, d), seps) == ts
    decreases |ts|
  {
    if |ts| == 1 {
      TokensOfWordThen(ts[0], [], seps);
      assert ts[0] + [] == ts[0];
    } else if |ts| > 1 {
      var tail := Join(ts[1..], d);
      assert Join(ts, d) == ts[0] + ([d] + tail);
      TokensOfWordThen(ts[0], [d] + tail, seps);
      assert ([d] + tail)[1..] == tail;
      TokensOfJoin(ts[1..], d, seps);
    }
  }

  // ---------------------------------------------------------------------
  // split(str, char)
  // ---------------------------------------------------------------------

  /**
   * `split(str, delimiter)` for a character delimiter: walks the string,
   * closing the current token at each delimiter and dropping empty tokens.
   */
  method SplitChar(str: string, delimiter: char) returns (result: seq<string>)
    ensures result == Tokens(str, {delimiter})
    ensures forall k :: 0 <= k < |result| ==> |result[k]| > 0 && delimiter !in result[k]
    ensures Concat(result) == Strip(str, {delimiter})
  {
    result := [];
    var token: string := [];
    assert token + str[0..] == str;
    for i := 0 to |str|
      invariant SepFree(token, {delimiter})
      invariant result + Tokens(token + str[i..], {delimiter}) == Tokens(str, {delimiter})
    {
      SplitStep(token, str, i, delimiter);
      if str[i] == delimiter {
        if token != [] {
          AppendAssoc(result, [token], Tokens(str[i + 1..], {delimiter}));
          result := result + [token];
        }
        token := [];
      } else {
        token := token + [str[i]];
      }
    }
    assert token + str[|str|..] == token;
    if token != [] {
      TokensOfWordThen(token, [], {delimiter});
      result := result + [token];
    }
    TokensAvoid(str, delimiter);
  }

  /**
   * One character of the walk: a delimiter closes the current token, if
   * there is one, and is skipped; any other character extends the token.
   */
  lemma SplitStep(token: string, str: string, i: nat, d: char)
    requires i < |str| && SepFree(token, {d})
    ensures str[i] == d && token != [] ==> Tokens(token + str[i..], {d}) == [token] + Tokens([] + str[i + 1..], {d})
    ensures str[i] == d && token == [] ==> Tokens(token + str[i..], {d}) == Tokens([] + str[i + 1..], {d})
    ensures str[i] != d ==> SepFree(token + [str[i]], {d}) && token + str[i..] == (token + [str[i]]) + str[i + 1..]
  {
    assert [] + str[i + 1..] == str[i + 1..];
    if str[i] == d {
      if token != [] {
        DelimiterClosesToken(token, str, i, d);
      } else {
        assert token + str[i..] == str[i..];
        DelimiterSkipped(str, i, d);
      }
    } else {
      assert token + str[i..] == (token + [str[i]]) + str[i + 1..];
    }
  }

  lemma AppendAssoc<T>(a: seq<T>, b: seq<T>, c: seq<T>)
    ensures a + (b + c) == (a + b) + c
  {
  }

  lemma DelimiterClosesToken(token: string, str: string, i: nat, d: char)
    requires i < |str| && str[i] == d && token != [] && SepFree(token, {d})
    ensures Tokens(token + str[i..], {d}) == [token] + Tokens(str[i + 1..], {d})
  {
    TokensOfWordThen(token, str[i..], {d});
    DelimiterSkipped(str, i, d);
  }

  lemma DelimiterSkipped(str: string, i: nat, d: char)
    requires i < |str| && str[i] == d
    ensures Tokens(str[i..], {d}) == Tokens(str[i + 1..], {d})
  {
    assert str[i..][1..] == str[i + 1..];
  }

  /** The tokens split at one character are non-empty, free of it, and spell the string without it. */
  lemma TokensAvoid(str: string, d: char)
    ensures forall k :: 0 <= k < |Tokens(str, {d})| ==> |Tokens(str, {d})[k]| > 0 && d !in Tokens(str, {d})[k]
    ensures Concat(Tokens(str, {d})) == Strip(str, {d})
  {
    TokensShape(str, {d});
    forall k | 0 <= k < |Tokens(str, {d})|
      ensures d !in Tokens(str, {d})[k]
    {
      assert SepFree(Tokens(str, {d})[k], {d});
    }
  }

  // ---------------------------------------------------------------------
  // std::string::find and the free function find
  // ---------------------------------------------------------------------

  /** `sub` occurs in `s` starting at index `p`. */
  predicate OccursAt(s: string, sub: string, p: int) {
    0 <= p && p + |sub| <= |s| && s[p..p + |sub|] == sub
  }

  /** `sub` occurs nowhere in `s`. */
  ghost predicate NoOccurrence(s: string, sub: string) {
    forall p :: !OccursAt(s, sub, p)
  }

  /** `std::string::find(sub, pos)`: the first occurrence at or after `pos`, or -1. */
  function FindSub(s: string, sub: string, pos: nat): (r: int)
    ensures r == -1 || (pos <= r && OccursAt(s, sub, r))
    decreases |s| - pos
  {
    if pos + |sub| > |s| then -1
    else if s[pos..pos + |sub|] == sub then pos
    else FindSub(s, sub, pos + 1)
  }

  /** The occurrence `FindSub` reports is the first: none lies between `pos` and it, and none at all after `pos` when it reports -1. */
  lemma {:induction false} FindSubFirst(s: string, sub: string, pos: nat)
    ensures FindSub(s, sub, pos) == -1 ==> forall p :: pos <= p ==> !OccursAt(s, sub, p)
    ensures FindSub(s, sub, pos) >= 0 ==> forall p :: pos <= p < FindSub(s, sub, pos) ==> !OccursAt(s, sub, p)
    decreases |s| - pos
  {
    if pos + |sub| <= |s| && s[pos..pos + |sub|] != sub {
      FindSubFirst(s, sub, pos + 1);
    }
  }

  /** `std::string::find(c, pos)`: the first index at or after `pos` holding `c`, or -1. */
  function FindChar(s: string, c: char, pos: nat): (r: int)
    ensures r == -1 || (pos <= r < |s| && s[r] == c)
    decreases |s| - pos
  {
    if pos >= |s| then -1
    else if s[pos] == c then pos
    else FindChar(s, c, pos + 1)
  }

  /** The index `FindChar` reports is the first: `c` is absent before it, and everywhere after `pos` when it reports -1. */
  lemma {:induction false} FindCharFirst(s: string, c: char, pos: nat)
    ensures FindChar(s, c, pos) == -1 ==> forall p :: pos <= p < |s| ==> s[p] != c
    ensures FindChar(s, c, pos) >= 0 ==> forall p :: pos <= p < FindChar(s, c, pos) ==> s[p] != c
    decreases |s| - pos
  {
    if pos < |s| && s[pos] != c {
      FindCharFirst(s, c, pos + 1);
    }
  }

  /**
   * The free function `find(str, startPos, chr)`: the least index at or
   * after `startPos` holding `chr`, or -1. A negative `startPos` converts to
   * a huge unsigned value in the loop test `i < str.length()`, so the loop
   * does not run and the result is -1.
   */
  method Find(str: string, startPos: int, chr: char) returns (r: int)
    ensures startPos < 0 ==> r == -1
    ensures r == -1 || (0 <= startPos <= r < |str| && str[r] == chr)
    ensures r == -1 ==> forall p :: 0 <= startPos <= p < |str| ==> str[p] != chr
    ensures r >= 0 ==> forall p :: startPos <= p < r ==> str[p] != chr
  {
    if startPos < 0 {
      return -1;
    }
    var i := startPos;
    while i < |str|
      invariant startPos <= i
      invariant forall p :: startPos <= p < i && p < |str| ==> str[p] != chr
    {
      if chr == str[i] {
        return i;
      }
      i := i + 1;
    }
    return -1;
  }

  /** `FindChar` is the same search as the free function, started at a non-negative position. */
  lemma FindCharIsLeast(s: string, c: char, pos: nat, p: nat)
    requires pos <= p < |s| && s[p] == c
    ensures 0 <= FindChar(s, c, pos) <= p
  {
    FindCharFirst(s, c, pos);
  }

  // ---------------------------------------------------------------------
  // split(str, string)
  // ---------------------------------------------------------------------

  /**
   * `split(str, delimiter)` for a string delimiter: the pieces between
   * consecutive occurrences, skipping empty pieces. The delimiter must not
   * be empty.
   */
  method SplitStr(str: string, delimiter: string) returns (result: seq<string>)
    requires |delimiter| > 0
    ensures forall k :: 0 <= k < |result| ==> |result[k]| > 0
    ensures forall k :: 0 <= k < |result| ==> NoOccurrence(result[k], delimiter)
    ensures |delimiter| == 1 ==> result == Tokens(str, {delimiter[0]})
  {
    result := [];
    var start: nat := 0;
    var end := FindSub(str, delimiter, 0);
    ghost var seps := {delimiter[0]};
    ghost var whole := Tokens(str, seps);
    assert str[0..] == str;
    while end != -1
      invariant start <= |str|
      invariant end == FindSub(str, delimiter, start)
      invariant Pieces(result, delimiter)
      invariant |delimiter| == 1 ==> result + Tokens(str[start..], seps) == whole
      decreases |str| - start
    {
      ghost var before := result;
      if start != end {
        result := result + [str[start..end]];
      }
      SplitStrRound(str, delimiter, start, end, before, result);
      start := end + |delimiter|;
      end := FindSub(str, delimiter, start);
    }
    ghost var before := result;
    if start < |str| {
      result := result + [str[start..]];
    }
    SplitStrFinish(str, delimiter, start, before, result);
  }

  /** Every piece is non-empty and free of the delimiter. */
  ghost predicate Pieces(rs: seq<string>, delimiter: string) {
    forall k :: 0 <= k < |rs| ==> |rs[k]| > 0 && NoOccurrence(rs[k], delimiter)
  }

  /** The text after the last occurrence completes the pieces and, for a one-character delimiter, the tokens. */
  lemma SplitStrFinish(str: string, delimiter: string, start: nat, before: seq<string>, after: seq<string>)
    requires |delimiter| > 0 && start <= |str| && FindSub(str, delimiter, start) == -1
    requires Pieces(before, delimiter)
    requires |delimiter| == 1 ==> before + Tokens(str[start..], {delimiter[0]}) == Tokens(str, {delimiter[0]})
    requires after == before + (if start < |str| then [str[start..]] else [])
    ensures Pieces(after, delimiter)
    ensures |delimiter| == 1 ==> after == Tokens(str, {delimiter[0]})
  {
    FindSubFirst(str, delimiter, start);
    if |delimiter| == 1 {
      SplitStrTokensLast(str, delimiter, start);
    }
    if start < |str| {
      PieceHasNoDelimiter(str, delimiter, start, |str|);
      assert str[start..] == str[start..|str|];
      assert after[|before|] == str[start..];
    } else {
      assert after == before;
    }
  }

  /** One round of the string-delimiter loop keeps the pieces clean and, for a one-character delimiter, agrees with `Tokens`. */
  lemma SplitStrRound(str: string, delimiter: string, start: nat, end: int, before: seq<string>, after: seq<string>)
    requires |delimiter| > 0 && start <= |str|
    requires end != -1 && end == FindSub(str, delimiter, start)
    requires Pieces(before, delimiter)
    requires |delimiter| == 1 ==> before + Tokens(str[start..], {delimiter[0]}) == Tokens(str, {delimiter[0]})
    requires after == before + (if start != end then [str[start..end]] else [])
    ensures Pieces(after, delimiter)
    ensures |delimiter| == 1 ==> after + Tokens(str[end + |delimiter|..], {delimiter[0]}) == Tokens(str, {delimiter[0]})
  {
    if start != end {
      FindSubFirst(str, delimiter, start);
      PieceHasNoDelimiter(str, delimiter, start, end);
      assert after[|before|] == str[start..end];
    } else {
      assert after == before;
    }
    if |delimiter| == 1 {
      SplitStrKeepsTokens(str, delimiter, start, end, before, after);
    }
  }

  /** One round of the string-delimiter loop, for a one-character delimiter, in terms of `Tokens`. */
  lemma SplitStrTokensStep(str: string, delimiter: string, start: nat, end: int)
    requires |delimiter| == 1 && start <= |str|
    requires end != -1 && end == FindSub(str, delimiter, start)
    ensures Tokens(str[start..], {delimiter[0]})
      == (if start != end then [str[start..end]] else []) + Tokens(str[end + 1..], {delimiter[0]})
  {
    var d := delimiter[0];
    assert delimiter == [d];
    assert str[end..end + 1] == [str[end]];
    if start == end {
      assert str[start..][1..] == str[end + 1..];
    } else {
      FindSubFirst(str, delimiter, start);
      SplitStrStep(str, d, start, end);
    }
  }

  lemma SplitStrKeepsTokens(str: string, delimiter: string, start: nat, end: int,
                            before: seq<string>, after: seq<string>)
    requires |delimiter| == 1 && start <= |str|
    requires end != -1 && end == FindSub(str, delimiter, start)
    requires before + Tokens(str[start..], {delimiter[0]}) == Tokens(str, {delimiter[0]})
    requires after == before + (if start != end then [str[start..end]] else [])
    ensures after + Tokens(str[end + |delimiter|..], {delimiter[0]}) == Tokens(str, {delimiter[0]})
  {
    SplitStrTokensStep(str, delimiter, start, end);
    Regroup(before, if start != end then [str[start..end]] else [], Tokens(str[end + 1..], {delimiter[0]}));
  }

  lemma Regroup(a: seq<string>, b: seq<string>, c: seq<string>)
    ensures (a + b) + c == a + (b + c)
  {
  }

  lemma SliceOfSlice(s: string, a: nat, b: nat, c: nat, d: nat)
    requires a <= b <= |s| && c <= d <= b - a
    ensures s[a..b][c..d] == s[a + c..a + d]
  {
    assert forall k :: 0 <= k < d - c ==> s[a..b][c..d][k] == s[a + c..a + d][k];
  }

  /** What remains after the last occurrence, for a one-character delimiter. */
  lemma SplitStrTokensLast(str: string, delimiter: string, start: nat)
    requires |delimiter| == 1 && start <= |str|
    requires FindSub(str, delimiter, start) == -1
    ensures Tokens(str[start..], {delimiter[0]}) == (if start < |str| then [str[start..]] else [])
  {
    var d := delimiter[0];
    assert delimiter == [d];
    if start < |str| {
      FindSubFirst(str, delimiter, start);
      SplitStrLast(str, d, start);
    } else {
      assert str[start..] == [];
    }
  }

  /** The text between `start` and the first occurrence at or after it holds no occurrence. */
  lemma PieceHasNoDelimiter(str: string, delimiter: string, start: nat, end: nat)
    requires start <= end <= |str|
    requires forall p :: start <= p && p + |delimiter| <= end ==> !OccursAt(str, delimiter, p)
    ensures NoOccurrence(str[start..end], delimiter)
  {
    var t := str[start..end];
    var n := |delimiter|;
    forall p | OccursAt(t, delimiter, p)
      ensures false
    {
      assert |t| == end - start;
      SliceOfSlice(str, start, end, p, p + n);
      assert OccursAt(str, delimiter, start + p);
    }
  }

  lemma SplitStrStep(str: string, d: char, start: nat, end: nat)
    requires start < end < |str| && str[end] == d
    requires forall p :: start <= p < end ==> !OccursAt(str, [d], p)
    ensures Tokens(str[start..], {d}) == [str[start..end]] + Tokens(str[end + 1..], {d})
  {
    var t := str[start..end];
    forall i | 0 <= i < |t|
      ensures t[i] !in {d}
    {
      assert str[start + i..start + i + 1] == [str[start + i]];
      assert !OccursAt(str, [d], start + i);
    }
    assert str[start..] == t + str[end..];
    TokensOfWordThen(t, str[end..], {d});
    assert str[end..][1..] == str[end + 1..];
  }

  lemma SplitStrLast(str: string, d: char, start: nat)
    requires start < |str|
    requires forall p :: start <= p ==> !OccursAt(str, [d], p)
    ensures Tokens(str[start..], {d}) == [str[start..]]
  {
    var t := str[start..];
    forall i | 0 <= i < |t|
      ensures t[i] !in {d}
    {
      assert str[start + i..start + i + 1] == [str[start + i]];
      assert !OccursAt(str, [d], start + i);
    }
    TokensOfWordThen(t, [], {d});
    assert t + [] == t;
  }

  // ---------------------------------------------------------------------
  // Whitespace words, as extracted by `operator>>`
  // ---------------------------------------------------------------------

  /** The characters `isspace` accepts in the C locale. */
  const Whitespace: set<char> := {' ', '\t', '\n', '\r', 11 as char, 12 as char}

  /** The words successive `>> std::string` extractions read from a line. */
  function Words(line: string): (ws: seq<string>)
    ensures forall k :: 0 <= k < |ws| ==> |ws[k]| > 0 && SepFree(ws[k], Whitespace)
  {
    TokensShape(line, Whitespace);
    Tokens(line, Whitespace)
  }

  /** Word `k` of a line, or none when the line has fewer words (the extraction fails). */
  function WordAt(ws: seq<string>, k: nat): Option<string> {
    if k < |ws| then Some(ws[k]) else None
  }

  /** Number of occurrences of `c` in `s` (`std::count`). */
  function CountChar(s: string, c: char): nat {
    if s == [] then 0 else (if s[0] == c then 1 else 0) + CountChar(s[1..], c)
  }

  lemma {:induction false} CountCharAppend(a: string, b: string, c: char)
    ensures CountChar(a + b, c) == CountChar(a, c) + CountChar(b, c)
    decreases |a|
  {
    if a == [] {
      assert a + b == b;
    } else {
      assert (a + b)[1..] == a[1..] + b;
      CountCharAppend(a[1..], b, c);
    }
  }

  lemma {:induction false} CountCharAbsent(a: string, c: char)
    requires forall i :: 0 <= i < |a| ==> a[i] != c
    ensures CountChar(a, c) == 0
    decreases |a|
  {
    if a != [] {
      CountCharAbsent(a[1..], c);
    }
  }

  /**
   * `s.substr(pos, count)` with size_t arguments: a `count` that is negative
   * here stands for a wrapped-around huge size_t and reaches the end, as does
   * a count past the end. A start past the end throws `std::out_of_range`.
   */
  function Substr(s: string, pos: int, count: int): (r: Option<string>)
    ensures r.Some? <==> 0 <= pos <= |s|
    ensures r.Some? ==> (count < 0 || pos + count >= |s|) ==> r.value == s[pos..]
    ensures r.Some? ==> 0 <= count && pos + count < |s| ==> r.value == s[pos..pos + count]
  {
    if pos < 0 || pos > |s| then None
    else if count < 0 || pos + count >= |s| then Some(s[pos..])
    else Some(s[pos..pos + count])
  }

  // ---------------------------------------------------------------------
  // Numeric decoding
  // ---------------------------------------------------------------------

  predicate IsDigit(c: char) {
    '0' <= c <= '9'
  }

  predicate AllDigits(s: string) {
    forall i :: 0 <= i < |s| ==> IsDigit(s[i])
  }

  /** Length of the longest all-digit prefix. */
  function DigitPrefix(s: string): (n: nat)
    ensures n <= |s| && AllDigits(s[..n])
    ensures n < |s| ==> !IsDigit(s[n])
  {
    if s == [] || !IsDigit(s[0]) then 0 else 1 + DigitPrefix(s[1..])
  }

  /** Value of a string of decimal digits, most significant first. */
  function DigitsValue(s: string): nat
    requires AllDigits(s)
  {
    if s == [] then 0 else 10 * DigitsValue(s[..|s| - 1]) + (s[|s| - 1] as int - '0' as int)
  }

  /** Decimal rendering of a natural number, most significant digit first. */
  function Decimal(n: nat): (s: string)
    ensures |s| > 0 && AllDigits(s)
  {
    var d := ['0' + (n % 10) as char];
    if n < 10 then d else Decimal(n / 10) + d
  }

  lemma {:induction false} DigitsValueOfDecimal(n: nat)
    ensures DigitsValue(Decimal(n)) == n
    decreases n
  {
    var s := Decimal(n);
    assert s[..|s| - 1] == (if n < 10 then [] else Decimal(n / 10));
    if n >= 10 {
      DigitsValueOfDecimal(n / 10);
    }
  }

  const IntMin: int := -0x8000_0000
  const IntMax: int := 0x7FFF_FFFF

  /**
   * `std::stoi`: leading whitespace is skipped, an optional sign and then the
   * longest run of digits is read and the rest ignored. No digit at all
   * (`std::invalid_argument`) or a value outside 32-bit `int`
   * (`std::out_of_range`) is a failure.
   */
  function Stoi(s: string): (r: Option<int>)
    ensures r.Some? ==> IntMin <= r.value <= IntMax
  {
    var t := s[RunLengthOf(s)..];
    var signed := |t| > 0 && (t[0] == '-' || t[0] == '+');
    var u := if signed then t[1..] else t;
    var n := DigitPrefix(u);
    if n == 0 then None
    else
      var magnitude := DigitsValue(u[..n]);
      var v: int := if signed && t[0] == '-' then -(magnitude as int) else magnitude;
      if IntMin <= v <= IntMax then Some(v) else None
  }

  /** Length of the leading whitespace. */
  function RunLengthOf(s: string): (n: nat)
    ensures n <= |s|
  {
    if s == [] || s[0] !in Whitespace then 0 else 1 + RunLengthOf(s[1..])
  }

  /** `std::stoi` reads back the decimal rendering of any non-negative `int`. */
  lemma StoiOfDecimal(n: nat)
    requires n <= IntMax
    ensures Stoi(Decimal(n)) == Some(n)
  {
    var s := Decimal(n);
    assert s[0] !in Whitespace;
    assert RunLengthOf(s) == 0;
    assert s[0..] == s;
    DigitPrefixAll(s);
    assert s[..|s|] == s;
    DigitsValueOfDecimal(n);
  }

  /** `std::stoi` stops at the first character that is not a digit. */
  lemma StoiOfDigitsThen(p: string, rest: string)
    requires |p| > 0 && AllDigits(p)
    requires rest == [] || !IsDigit(rest[0])
    ensures Stoi(p + rest) == Stoi(p)
  {
    var s := p + rest;
    assert s[0] == p[0];
    assert RunLengthOf(s) == 0 && RunLengthOf(p) == 0;
    assert s[0..] == s && p[0..] == p;
    DigitPrefixThen(p, rest);
    DigitPrefixAll(p);
    assert s[..|p|] == p;
    assert p[..|p|] == p;
  }

  lemma {:induction false} DigitPrefixAll(s: string)
    requires AllDigits(s)
    ensures DigitPrefix(s) == |s|
    decreases |s|
  {
    if s != [] {
      DigitPrefixAll(s[1..]);
    }
  }

  lemma {:induction false} DigitPrefixThen(p: string, rest: string)
    requires AllDigits(p)
    requires rest == [] || !IsDigit(rest[0])
    ensures DigitPrefix(p + rest) == |p|
    decreases |p|
  {
    if p == [] {
      assert p + rest == rest;
    } else {
      assert (p + rest)[1..] == p[1..] + rest;
      DigitPrefixThen(p[1..], rest);
    }
  }

  /** 10 to the power `k`, as a real. */
  function Pow10(k: nat): (r: real)
    ensures r >= 1.0
  {
    if k == 0 then 1.0 else 10.0 * Pow10(k - 1)
  }

  /**
   * `>> float` on one whitespace-free word: an optional sign, digits, and
   * an optional fraction after '.', with at least one digit in all. The
   * whole word must be consumed.
   */
  function ParseReal(w: string): (r: Option<real>)
    ensures r.Some? ==> |w| > 0
  {
    var negative := |w| > 0 && w[0] == '-';
    var u := if |w| > 0 && (w[0] == '-' || w[0] == '+') then w[1..] else w;
    var n := DigitPrefix(u);
    var rest := u[n..];
    if rest == [] then
      (if n == 0 then None else Some(Signed(negative, DigitsValue(u[..n]) as real)))
    else if rest[0] != '.' then None
    else
      var frac := rest[1..];
      if !AllDigits(frac) || n + |frac| == 0 then None
      else Some(Signed(negative, DigitsValue(u[..n]) as real + DigitsValue(frac) as real / Pow10(|frac|)))
  }

  function Signed(negative: bool, x: real): real {
    if negative then -x else x
  }

  /** `>> float` reads back the decimal rendering of a natural number. */
  lemma ParseRealOfDecimal(n: nat)
    ensures ParseReal(Decimal(n)) == Some(n as real)
  {
    var s := Decimal(n);
    DigitPrefixAll(s);
    assert s[|s|..] == [];
    assert s[..|s|] == s;
    DigitsValueOfDecimal(n);
  }

  // ---------------------------------------------------------------------
  // std::string ordering (the key order of std::map<std::string, _>)
  // ---------------------------------------------------------------------

  /** `a < b` for `std::string`: lexicographic, a proper prefix first. */
  predicate StrLess(a: string, b: string)
    decreases |a|
  {
    |b| > 0 && (|a| == 0 || a[0] < b[0] || (a[0] == b[0] && StrLess(a[1..], b[1..])))
  }

  lemma {:induction false} StrLessIrreflexive(a: string)
    ensures !StrLess(a, a)
    decreases |a|
  {
    if |a| > 0 {
      StrLessIrreflexive(a[1..]);
    }
  }

  lemma {:induction false} StrLessTransitive(a: string, b: string, c: string)
    requires StrLess(a, b) && StrLess(b, c)
    ensures StrLess(a, c)
    decreases |a|
  {
    if |a| > 0 && a[0] == b[0] && b[0] == c[0] {
      StrLessTransitive(a[1..], b[1..], c[1..]);
    }
  }

  lemma {:induction false} StrLessTotal(a: string, b: string)
    requires a != b
    ensures StrLess(a, b) || StrLess(b, a)
    decreases |a|
  {
    if |a| > 0 && |b| > 0 && a[0] == b[0] {
      assert a == [a[0]] + a[1..] && b == [b[0]] + b[1..];
      StrLessTotal(a[1..], b[1..]);
    }
  }

  /** Strictly increasing in `std::string` order, hence free of repeats. */
  predicate StrictlySorted(s: seq<string>) {
    forall i, j :: 0 <= i < j < |s| ==> StrLess(s[i], s[j])
  }

  /** Inserts a new key into a strictly sorted sequence at its place. */
  function InsertSorted(s: seq<string>, k: string): (r: seq<string>)
    requires StrictlySorted(s) && k !in s
    ensures StrictlySorted(r)
    ensures |r| == |s| + 1
    ensures forall x :: x in r <==> x in s || x == k
  {
    if s == [] then [k]
    else if StrLess(k, s[0]) then
      assert forall j :: 0 < j < |s| ==> StrLess(k, s[j]) by {
        forall j | 0 < j < |s| { StrLessTransitive(k, s[0], s[j]); }
      }
      [k] + s
    else
      StrLessTotal(k, s[0]);
      var tail := InsertSorted(s[1..], k);
      assert forall x :: x in tail ==> StrLess(s[0], x) by {
        forall x | x in tail
          ensures StrLess(s[0], x)
        {
          if x != k {
            var j :| 0 <= j < |s[1..]| && s[1..][j] == x;
            assert s[j + 1] == x;
          }
        }
      }
      assert s == [s[0]] + s[1..];
      [s[0]] + tail
  }

  /**
   * The keys of a map in the order `std::map<std::string, V>` iterates
   * them: strictly increasing, each key exactly once.
   */
  method SortedKeys<V>(m: map<string, V>) returns (ks: seq<string>)
    ensures StrictlySorted(ks)
    ensures forall k :: k in ks <==> k in m
    ensures |ks| == |m|
  {
    ks := [];
    var rest := m.Keys;
    while rest != {}
      invariant StrictlySorted(ks)
      invariant forall k :: k in ks <==> k in m && k !in rest
      invariant rest <= m.Keys
      invariant |ks| + |rest| == |m|
      decreases rest
    {
      var k :| k in rest;
      ks := InsertSorted(ks, k);
      rest := rest - {k};
    }
  }
}
