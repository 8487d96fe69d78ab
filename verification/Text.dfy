/** Python string operations the gate relies on: whitespace, `strip`, `split`, `join`. */
module Text {

  datatype Option<+T> = None | Some(value: T)

  /** The characters `str.strip()` and `str.split()` treat as whitespace. */
  predicate IsSpace(c: char) {
    var n := c as int;
    || 9 <= n <= 13 || 28 <= n <= 32 || n == 0x85 || n == 0xA0 || n == 0x1680
    || 0x2000 <= n <= 0x200A || n == 0x2028 || n == 0x2029 || n == 0x202F || n == 0x205F || n == 0x3000
  }

  function Lstrip(s: string): string {
    if s != [] && IsSpace(s[0]) then Lstrip(s[1..]) else s
  }

  function Rstrip(s: string): string {
    if s != [] && IsSpace(s[|s| - 1]) then Rstrip(s[..|s| - 1]) else s
  }

  function Strip(s: string): string {
    Rstrip(Lstrip(s))
  }

  predicate IsBlank(s: string) {
    Strip(s) == []
  }

  predicate StartsWith(s: string, p: string) {
    p <= s
  }

  /** ASCII lower case; the command lists are ASCII. */
  function Lower(s: string): string {
    seq(|s|, i requires 0 <= i < |s| => if 'A' <= s[i] <= 'Z' then (s[i] as int + 32) as char else s[i])
  }

  /** A token `split()` can produce: not empty, no whitespace inside. */
  predicate IsWord(w: string) {
    w != [] && forall i | 0 <= i < |w| :: !IsSpace(w[i])
  }

  predicate AllWords(ws: seq<string>) {
    forall i | 0 <= i < |ws| :: IsWord(ws[i])
  }

  /** `s.split()` with `cur` the token being read. */
  function Words(s: string, cur: string): seq<string> {
    if s == [] then (if cur == [] then [] else [cur])
    else if IsSpace(s[0]) then (if cur == [] then [] else [cur]) + Words(s[1..], [])
    else Words(s[1..], cur + [s[0]])
  }

  function Split(s: string): seq<string> {
    Words(s, [])
  }

  /** `" ".join(ws)` */
  function Join(ws: seq<string>): string {
    if |ws| == 0 then [] else if |ws| == 1 then ws[0] else ws[0] + " " + Join(ws[1..])
  }

  /** `s.split(" ")` with `cur` the field being read: separates at every single space. */
  function Fields(s: string, cur: string): seq<string> {
    if s == [] then [cur]
    else if s[0] == ' ' then [cur] + Fields(s[1..], [])
    else Fields(s[1..], cur + [s[0]])
  }

  lemma {:induction false} WordsAreWords(s: string, cur: string)
    requires forall i | 0 <= i < |cur| :: !IsSpace(cur[i])
    ensures AllWords(Words(s, cur))
    decreases |s|
  {
    if s != [] {
      if IsSpace(s[0]) {
        WordsAreWords(s[1..], []);
      } else {
        WordsAreWords(s[1..], cur + [s[0]]);
      }
    }
  }

  lemma {:induction false} WordsReadsWord(w: string, rest: string, cur: string)
    requires forall i | 0 <= i < |w| :: !IsSpace(w[i])
    ensures Words(w + rest, cur) == Words(rest, cur + w)
    decreases |w|
  {
    if w == [] {
      assert w + rest == rest && cur + w == cur;
    } else {
      assert (w + rest)[1..] == w[1..] + rest;
      WordsReadsWord(w[1..], rest, cur + [w[0]]);
      assert cur + [w[0]] + w[1..] == cur + w;
    }
  }

  /** Joining tokens and splitting again gives the tokens back. */
  lemma {:induction false} SplitJoin(ws: seq<string>)
    requires AllWords(ws)
    ensures Split(Join(ws)) == ws
  {
    if |ws| == 0 {
    } else if |ws| == 1 {
      WordsReadsWord(ws[0], [], []);
      assert ws[0] + [] == ws[0] && [] + ws[0] == ws[0];
    } else {
      var tail := " " + Join(ws[1..]);
      assert Join(ws) == ws[0] + tail;
      WordsReadsWord(ws[0], tail, []);
      assert [] + ws[0] == ws[0] && tail[0] == ' ' && tail[1..] == Join(ws[1..]);
      SplitJoin(ws[1..]);
      assert [ws[0]] + ws[1..] == ws;
    }
  }

  lemma {:induction false} FieldsReadsWord(w: string, rest: string, cur: string)
    requires forall i | 0 <= i < |w| :: !IsSpace(w[i])
    ensures Fields(w + rest, cur) == Fields(rest, cur + w)
    decreases |w|
  {
    if w == [] {
      assert w + rest == rest && cur + w == cur;
    } else {
      assert !IsSpace(w[0]) && IsSpace(' ');
      assert (w + rest)[1..] == w[1..] + rest;
      FieldsReadsWord(w[1..], rest, cur + [w[0]]);
      assert cur + [w[0]] + w[1..] == cur + w;
    }
  }

  /** On a joined, non-empty token list `split(" ")` agrees with `split()`. */
  lemma {:induction false} FieldsJoin(ws: seq<string>)
    requires AllWords(ws) && ws != []
    ensures Fields(Join(ws), []) == ws
  {
    if |ws| == 1 {
      FieldsReadsWord(ws[0], [], []);
      assert ws[0] + [] == ws[0] && [] + ws[0] == ws[0];
    } else {
      var tail := " " + Join(ws[1..]);
      assert Join(ws) == ws[0] + tail;
      FieldsReadsWord(ws[0], tail, []);
      assert [] + ws[0] == ws[0] && tail[0] == ' ' && tail[1..] == Join(ws[1..]);
      FieldsJoin(ws[1..]);
      assert [ws[0]] + ws[1..] == ws;
    }
  }

  predicate AllSpace(s: string) {
    forall i | 0 <= i < |s| :: IsSpace(s[i])
  }

  lemma {:induction false} LstripExact(s: string) returns (a: string)
    ensures AllSpace(a) && s == a + Lstrip(s) && (Lstrip(s) != [] ==> !IsSpace(Lstrip(s)[0]))
  {
    a := [];
    if s != [] && IsSpace(s[0]) {
      var b := LstripExact(s[1..]);
      a := [s[0]] + b;
    }
  }

  lemma {:induction false} RstripExact(s: string) returns (b: string)
    ensures AllSpace(b) && s == Rstrip(s) + b && (Rstrip(s) != [] ==> !IsSpace(Rstrip(s)[|Rstrip(s)| - 1]))
    decreases |s|
  {
    b := [];
    var k := |s| - 1;
    if s != [] && IsSpace(s[k]) {
      var a := RstripExact(s[..k]);
      b := a + [s[k]];
      assert s == s[..k] + [s[k]];
      assert Rstrip(s) == Rstrip(s[..k]);
      assert forall i | 0 <= i < |b| :: b[i] == if i < |a| then a[i] else s[k];
    }
  }

  /** `strip` removes whitespace at both ends and nothing else, and all of it. */
  lemma StripExact(s: string) returns (a: string, b: string)
    ensures AllSpace(a) && AllSpace(b) && s == a + Strip(s) + b
    ensures Strip(s) != [] ==> !IsSpace(Strip(s)[0]) && !IsSpace(Strip(s)[|Strip(s)| - 1])
    ensures IsBlank(s) <==> AllSpace(s)
  {
    a := LstripExact(s);
    b := RstripExact(Lstrip(s));
    if Strip(s) != [] {
      assert Lstrip(s)[0] == Strip(s)[0];
      assert s[|a|] == Strip(s)[0];
    } else {
      assert s == a + b;
    }
  }

  /** `lower` keeps the length and every character but the capitals, of which none is left. */
  lemma LowerExact(s: string, i: nat)
    requires i < |s|
    ensures |Lower(s)| == |s| && !('A' <= Lower(s)[i] <= 'Z') && (!('A' <= s[i] <= 'Z') ==> Lower(s)[i] == s[i])
    ensures 'A' <= s[i] <= 'Z' ==> 'a' <= Lower(s)[i] <= 'z' && (Lower(s)[i] as int) - ('a' as int) == (s[i] as int) - ('A' as int)
  {
  }
}
