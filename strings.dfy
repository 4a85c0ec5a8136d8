/** The three Python string operations the proxy relies on:
    `str.split()` (runs of whitespace), `str.split(" ")` (every single space)
    and `" ".join(...)`, together with the lemmas that relate them. */
module Strings {

  /** Python's notion of whitespace for `str.split()` and `str.isspace()`:
      the code points with bidirectional type WS, B or S, or category Zs. */
  predicate IsSpace(c: char) {
    var n := c as int;
    n == 0x20 || (0x09 <= n <= 0x0D) || (0x1C <= n <= 0x1F) || n == 0x85 || n == 0xA0
    || n == 0x1680 || (0x2000 <= n <= 0x200A) || n == 0x2028 || n == 0x2029
    || n == 0x202F || n == 0x205F || n == 0x3000
  }

  /** What `str.split()` can return as one element: non-empty, no whitespace. */
  predicate IsWord(w: string) {
    |w| > 0 && forall i :: 0 <= i < |w| ==> !IsSpace(w[i])
  }

  predicate AllSpace(s: string) {
    forall i :: 0 <= i < |s| ==> IsSpace(s[i])
  }

  /** The longest whitespace-free prefix of `s`. */
  function TakeWord(s: string): (w: string)
    ensures |w| <= |s| && w == s[..|w|]
    ensures forall i :: 0 <= i < |w| ==> !IsSpace(w[i])
    ensures |w| < |s| ==> IsSpace(s[|w|])
  {
    if s == [] || IsSpace(s[0]) then [] else [s[0]] + TakeWord(s[1..])
  }

  /** `s.split()`: the maximal whitespace-free runs of `s`, in order. */
  function Words(s: string): (ws: seq<string>)
    ensures forall i :: 0 <= i < |ws| ==> IsWord(ws[i])
    decreases |s|
  {
    if s == [] then []
    else if IsSpace(s[0]) then Words(s[1..])
    else
      var w := TakeWord(s);
      [w] + Words(s[|w|..])
  }

  /** `s.split()` is empty exactly when `s` is empty or all whitespace. */
  lemma {:induction false} WordsEmptyIff(s: string)
    ensures Words(s) == [] <==> AllSpace(s)
    decreases |s|
  {
    if s != [] && IsSpace(s[0]) {
      WordsEmptyIff(s[1..]);
      if AllSpace(s[1..]) {
        forall i | 0 <= i < |s| ensures IsSpace(s[i]) {
          if i > 0 { assert s[i] == s[1..][i - 1]; }
        }
      }
    }
  }

  /** `sep.join(ps)`. */
  function Join(ps: seq<string>, sep: string): string {
    if ps == [] then ""
    else if |ps| == 1 then ps[0]
    else ps[0] + sep + Join(ps[1..], sep)
  }

  /** A word followed by whitespace (or nothing) is taken whole. */
  lemma {:induction false} TakeWordOfWord(w: string, t: string)
    requires forall i :: 0 <= i < |w| ==> !IsSpace(w[i])
    requires t == [] || IsSpace(t[0])
    ensures TakeWord(w + t) == w
    decreases |w|
  {
    if w != [] {
      assert (w + t)[0] == w[0];
      assert (w + t)[1..] == w[1..] + t;
      TakeWordOfWord(w[1..], t);
    } else {
      assert w + t == t;
    }
  }

  /** Splitting on whitespace undoes joining words with single spaces. */
  lemma {:induction false} WordsOfJoin(ws: seq<string>)
    requires forall i :: 0 <= i < |ws| ==> IsWord(ws[i])
    ensures Words(Join(ws, " ")) == ws
    decreases |ws|
  {
    if ws == [] {
    } else if |ws| == 1 {
      TakeWordOfWord(ws[0], []);
      assert ws[0] + [] == ws[0];
      assert ws[0][|ws[0]|..] == [];
    } else {
      var rest := Join(ws[1..], " ");
      var s := ws[0] + " " + rest;
      assert Join(ws, " ") == s;
      assert s == ws[0] + (" " + rest);
      TakeWordOfWord(ws[0], " " + rest);
      assert s[0] == ws[0][0];
      assert s[|ws[0]|..] == " " + rest;
      assert (" " + rest)[1..] == rest;
      WordsOfJoin(ws[1..]);
      assert Words(s) == [ws[0]] + Words(" " + rest);
      assert Words(" " + rest) == Words(rest);
    }
  }

  /** `s.split(" ")`: cut at every single space, keeping empty pieces. */
  function SplitOnSpace(s: string): (pieces: seq<string>)
    ensures |pieces| == multiset(s)[' '] + 1
    ensures forall i :: 0 <= i < |pieces| ==> ' ' !in pieces[i]
    decreases |s|
  {
    if s == [] then [""]
    else
      var rest := SplitOnSpace(s[1..]);
      assert s == [s[0]] + s[1..];
      assert multiset(s) == multiset([s[0]]) + multiset(s[1..]);
      if s[0] == ' ' then [""] + rest
      else [[s[0]] + rest[0]] + rest[1..]
  }

  lemma {:induction false} JoinCons(p: string, ps: seq<string>)
    requires |ps| > 0
    ensures Join([p] + ps, " ") == p + " " + Join(ps, " ")
  {
    assert ([p] + ps)[1..] == ps;
  }

  /** Gluing a character onto the first piece glues it onto the joined text. */
  lemma {:induction false} JoinExtendHead(c: char, ps: seq<string>)
    requires |ps| > 0
    ensures Join([[c] + ps[0]] + ps[1..], " ") == [c] + Join(ps, " ")
  {
    if |ps| > 1 {
      JoinCons([c] + ps[0], ps[1..]);
      JoinCons(ps[0], ps[1..]);
      assert [ps[0]] + ps[1..] == ps;
    }
  }

  /** Joining the pieces of `s.split(" ")` with single spaces gives back `s`. */
  lemma {:induction false} JoinSplit(s: string)
    ensures Join(SplitOnSpace(s), " ") == s
    decreases |s|
  {
    if s != [] {
      var rest := SplitOnSpace(s[1..]);
      JoinSplit(s[1..]);
      if s[0] == ' ' {
        assert SplitOnSpace(s) == [""] + rest;
        JoinCons("", rest);
      } else {
        assert SplitOnSpace(s) == [[s[0]] + rest[0]] + rest[1..];
        JoinExtendHead(s[0], rest);
      }
      assert s == [s[0]] + s[1..];
    }
  }

  /** A space-free prefix is glued onto the first piece of what follows it. */
  lemma {:induction false} SplitSpaceFreePrefix(p: string, t: string)
    requires ' ' !in p
    ensures SplitOnSpace(p + t) == [p + SplitOnSpace(t)[0]] + SplitOnSpace(t)[1..]
    decreases |p|
  {
    if p == [] {
      var st := SplitOnSpace(t);
      assert p + t == t && p + st[0] == st[0];
      assert [st[0]] + st[1..] == st;
    } else {
      assert ' ' !in p[1..] by {
        forall i | 0 <= i < |p[1..]| ensures p[1..][i] != ' ' { assert p[1..][i] == p[i + 1]; }
      }
      SplitSpaceFreePrefix(p[1..], t);
      assert (p + t)[0] == p[0] && (p + t)[1..] == p[1..] + t;
      assert p[0] != ' ' by { assert p[0] in p; }
      assert [p[0]] + (p[1..] + SplitOnSpace(t)[0]) == p + SplitOnSpace(t)[0];
    }
  }

  /** `s.split(" ")` undoes joining space-free pieces with single spaces. */
  lemma {:induction false} SplitJoin(ps: seq<string>)
    requires |ps| > 0
    requires forall i :: 0 <= i < |ps| ==> ' ' !in ps[i]
    ensures SplitOnSpace(Join(ps, " ")) == ps
    decreases |ps|
  {
    var p := ps[0];
    if |ps| == 1 {
      SplitSpaceFreePrefix(p, "");
      assert p + "" == p;
    } else {
      var rest := Join(ps[1..], " ");
      assert Join(ps, " ") == p + ([' '] + rest);
      SplitSpaceFreePrefix(p, [' '] + rest);
      assert ([' '] + rest)[1..] == rest;
      SplitJoin(ps[1..]);
      assert SplitOnSpace([' '] + rest) == [""] + ps[1..];
      assert p + "" == p;
      assert [p] + ps[1..] == ps;
    }
  }

  /** Concatenation of a sequence of strings, `"".join(ss)`. */
  function Concat(ss: seq<string>): string {
    if ss == [] then "" else ss[0] + Concat(ss[1..])
  }

  lemma {:induction false} ConcatAppend(ss: seq<string>, tt: seq<string>)
    ensures Concat(ss + tt) == Concat(ss) + Concat(tt)
    decreases |ss|
  {
    if ss == [] {
      assert ss + tt == tt;
    } else {
      assert (ss + tt)[0] == ss[0];
      assert (ss + tt)[1..] == ss[1..] + tt;
      ConcatAppend(ss[1..], tt);
    }
  }

  /** ASCII lower-casing of one character. */
  function LowerAscii(c: char): char {
    if 'A' <= c <= 'Z' then (c as int + 32) as char else c
  }

  /** `s.lower() == t` for a target `t` made of lower-case ASCII letters. */
  predicate LowerEquals(s: string, t: string) {
    |s| == |t| && forall i :: 0 <= i < |s| ==> LowerAscii(s[i]) == t[i]
  }
}
