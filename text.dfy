/**
 * String splitting as the Python code uses it: `str.split(sep)` (framing on '\r', tokenising
 * on ' '), `str.split()` (runs of whitespace) and `str.isspace()`.
 */
module Text {

  /** Index of the first `c` in `s`, or |s| when there is none. */
  function IndexOf(s: string, c: char): (k: nat)
    ensures k <= |s|
    ensures k < |s| ==> s[k] == c
    ensures forall j :: 0 <= j < k ==> s[j] != c
    ensures k == |s| <==> c !in s
  {
    if s == [] then 0 else if s[0] == c then 0 else 1 + IndexOf(s[1..], c)
  }

  /** Python's `s.split(sep)` for a one-character separator: every separator cuts, empty parts stay. */
  function Split(s: string, sep: char): (parts: seq<string>)
    ensures |parts| >= 1
    ensures forall i :: 0 <= i < |parts| ==> sep !in parts[i]
    decreases |s|
  {
    var k := IndexOf(s, sep);
    if k == |s| then [s] else [s[..k]] + Split(s[k + 1..], sep)
  }

  /** Python's `sep.join(parts)`. */
  function Join(parts: seq<string>, sep: char): string
  {
    if |parts| == 0 then ""
    else if |parts| == 1 then parts[0]
    else parts[0] + [sep] + Join(parts[1..], sep)
  }

  /** Joining the parts of a split with the same separator gives back the string. */
  lemma {:induction false} JoinSplit(s: string, sep: char)
    ensures Join(Split(s, sep), sep) == s
    decreases |s|
  {
    var k := IndexOf(s, sep);
    if k < |s| {
      var rest := s[k + 1..];
      var tail := Split(rest, sep);
      JoinSplit(rest, sep);
      var parts := [s[..k]] + tail;
      assert Split(s, sep) == parts;
      assert |parts| > 1 && parts[0] == s[..k] && parts[1..] == tail;
      assert Join(parts, sep) == s[..k] + [sep] + Join(tail, sep);
      assert s == s[..k] + [sep] + rest;
    }
  }

  /** Splitting a join of separator-free parts gives back the parts. */
  lemma {:induction false} SplitJoin(parts: seq<string>, sep: char)
    requires |parts| >= 1
    requires forall i :: 0 <= i < |parts| ==> sep !in parts[i]
    ensures Split(Join(parts, sep), sep) == parts
    decreases |parts|
  {
    if |parts| > 1 {
      var k := |parts[0]|;
      var tail := Join(parts[1..], sep);
      var s := parts[0] + [sep] + tail;
      assert Join(parts, sep) == s;
      IndexOfPrefix(parts[0], tail, sep);
      assert s[..k] == parts[0];
      assert s[k + 1..] == tail;
      assert Split(s, sep) == [parts[0]] + Split(tail, sep);
      SplitJoin(parts[1..], sep);
      assert parts == [parts[0]] + parts[1..];
    }
  }

  /** A separator right after a separator-free prefix is the first one. */
  lemma {:induction false} IndexOfPrefix(a: string, b: string, sep: char)
    requires sep !in a
    ensures IndexOf(a + [sep] + b, sep) == |a|
  {
    var s := a + [sep] + b;
    assert s[|a|] == sep;
    assert forall j :: 0 <= j < |a| ==> s[j] == a[j];
  }

  /** The parts of `parts` that are not the empty string, in order. */
  function NonEmpty(parts: seq<string>): (r: seq<string>)
    ensures |r| <= |parts|
    ensures forall i :: 0 <= i < |r| ==> r[i] != [] && r[i] in parts
    ensures forall p :: p in parts && p != [] ==> p in r
  {
    if parts == [] then []
    else if parts[0] == [] then NonEmpty(parts[1..])
    else [parts[0]] + NonEmpty(parts[1..])
  }

  /** The non-empty parts keep their order: one more part is appended iff it is non-empty. */
  lemma {:induction false} NonEmptyAppend(parts: seq<string>, x: string)
    ensures NonEmpty(parts + [x]) == NonEmpty(parts) + (if x == [] then [] else [x])
    decreases |parts|
  {
    if parts == [] {
      assert parts + [x] == [x];
      assert [x][1..] == [];
    } else {
      assert (parts + [x])[0] == parts[0];
      assert (parts + [x])[1..] == parts[1..] + [x];
      NonEmptyAppend(parts[1..], x);
    }
  }

  /** The characters Python's `str.isspace` and `str.split()` treat as whitespace (Latin-1 range). */
  predicate IsSpace(c: char)
  {
    var n := c as int;
    (9 <= n <= 13) || (28 <= n <= 32) || n == 133 || n == 160
  }

  /** Python's `s.isspace()`: non-empty and nothing but whitespace. */
  predicate IsAllSpace(s: string)
  {
    |s| > 0 && forall i :: 0 <= i < |s| ==> IsSpace(s[i])
  }

  /** Length of the run of non-whitespace characters that starts `s`. */
  function WordEnd(s: string): (k: nat)
    ensures k <= |s|
    ensures forall j :: 0 <= j < k ==> !IsSpace(s[j])
    ensures k < |s| ==> IsSpace(s[k])
  {
    if s == [] || IsSpace(s[0]) then 0 else 1 + WordEnd(s[1..])
  }

  predicate IsWord(w: string)
  {
    w != [] && forall j :: 0 <= j < |w| ==> !IsSpace(w[j])
  }

  /** Python's `s.split()`: the maximal runs of non-whitespace characters, in order. */
  function Words(s: string): (ws: seq<string>)
    ensures forall i :: 0 <= i < |ws| ==> IsWord(ws[i])
    decreases |s|
  {
    if s == [] then []
    else if IsSpace(s[0]) then Words(s[1..])
    else
      var k := WordEnd(s);
      [s[..k]] + Words(s[k..])
  }

  /** Words separated by single spaces are split back into the same words. */
  lemma {:induction false} WordsOfJoin(ws: seq<string>)
    requires forall i :: 0 <= i < |ws| ==> IsWord(ws[i])
    ensures Words(Join(ws, ' ')) == ws
    decreases |ws|
  {
    if |ws| == 1 {
      WordsOfWord(ws[0], []);
      assert ws[0] + [] == ws[0];
    } else if |ws| > 1 {
      var tail := Join(ws[1..], ' ');
      WordsOfWord(ws[0], [' '] + tail);
      assert ws[0] + [' '] + tail == ws[0] + ([' '] + tail);
      assert ([' '] + tail)[1..] == tail;
      WordsOfJoin(ws[1..]);
      assert ws == [ws[0]] + ws[1..];
    }
  }

  /** A word followed by whitespace or nothing splits off as the first word. */
  lemma WordsOfWord(w: string, rest: string)
    requires IsWord(w)
    requires rest == [] || IsSpace(rest[0])
    ensures Words(w + rest) == [w] + Words(rest)
  {
    var s := w + rest;
    WordEndOfWord(w, rest);
    assert s[..|w|] == w;
    assert s[|w|..] == rest;
  }

  lemma {:induction false} WordEndOfWord(w: string, rest: string)
    requires IsWord(w)
    requires rest == [] || IsSpace(rest[0])
    ensures WordEnd(w + rest) == |w|
    decreases |w|
  {
    var s := w + rest;
    if |w| > 1 {
      assert s[1..] == w[1..] + rest;
      WordEndOfWord(w[1..], rest);
    } else {
      assert s[1..] == rest;
    }
  }
}
