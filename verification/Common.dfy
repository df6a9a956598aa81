// Small helpers shared by every module of the model.
module Common {

  datatype Option<+T> = None | Some(value: T)

  // The outcome of an operation that the source may refuse by raising.
  datatype Attempt<+T> = Ok(value: T) | Refused(reason: string)

  predicate Blank(c: char) {
    c == ' ' || c == '\t' || c == '\n' || c == '\r'
  }

  // str.strip() for the ASCII blanks.
  function Strip(s: string): string {
    if s == "" then ""
    else if Blank(s[0]) then Strip(s[1..])
    else if Blank(s[|s| - 1]) then Strip(s[..|s| - 1])
    else s
  }

  // t is s without the characters in front of i and from j on, which are blanks.
  ghost predicate Trims(s: string, t: string, i: nat, j: nat) {
    && i <= j <= |s| && t == s[i..j]
    && forall k :: 0 <= k < i || j <= k < |s| ==> s[k] in {' ', '\t', '\n', '\r'}
  }

  // Stripping takes blanks off both ends, all of them and nothing else.
  lemma {:induction false} StripMeans(s: string) returns (i: nat, j: nat)
    ensures Trims(s, Strip(s), i, j)
    ensures i < j ==> s[i] !in {' ', '\t', '\n', '\r'} && s[j - 1] !in {' ', '\t', '\n', '\r'}
    decreases |s|
  {
    i, j := 0, |s|;
    if s != "" {
      if Blank(s[0]) {
        i, j := StripMeans(s[1..]);
        TrimsBehind(s, Strip(s), i, j);
        i, j := i + 1, j + 1;
      } else if Blank(s[|s| - 1]) {
        i, j := StripMeans(s[..|s| - 1]);
        TrimsInFront(s, Strip(s), i, j);
      }
    }
  }

  lemma TrimsBehind(s: string, t: string, i: nat, j: nat)
    requires s != "" && Blank(s[0]) && Trims(s[1..], t, i, j)
    ensures Trims(s, t, i + 1, j + 1)
  {
    forall k | 0 <= k < i + 1 || j + 1 <= k < |s|
      ensures s[k] in {' ', '\t', '\n', '\r'}
    {
      assert k > 0 ==> s[k] == s[1..][k - 1];
    }
  }

  lemma TrimsInFront(s: string, t: string, i: nat, j: nat)
    requires s != "" && Blank(s[|s| - 1]) && Trims(s[..|s| - 1], t, i, j)
    ensures Trims(s, t, i, j)
  {
    var front := s[..|s| - 1];
    assert s[i..j] == front[i..j];
    forall k | 0 <= k < i || j <= k < |s|
      ensures s[k] in {' ', '\t', '\n', '\r'}
    {
      assert k < |front| ==> s[k] == front[k];
    }
  }

  // dict.get(key) or "".
  function Get(m: map<string, string>, key: string): string {
    if key in m then m[key] else ""
  }

  function Max(a: int, b: int): int {
    if a < b then b else a
  }

  function Clamp(low: int, high: int, x: int): int {
    if x < low then low else if x > high then high else x
  }

  function Filter<T>(keep: T -> bool, xs: seq<T>): seq<T> {
    if xs == [] then []
    else (if keep(xs[0]) then [xs[0]] else []) + Filter(keep, xs[1..])
  }

  lemma FilterAppend<T>(keep: T -> bool, xs: seq<T>, ys: seq<T>)
    ensures Filter(keep, xs + ys) == Filter(keep, xs) + Filter(keep, ys)
  {
    if xs == [] {
      assert xs + ys == ys;
    } else {
      var head, zs := if keep(xs[0]) then [xs[0]] else [], xs + ys;
      assert zs[0] == xs[0] && zs[1..] == xs[1..] + ys;
      FilterAppend(keep, xs[1..], ys);
      var front, back := Filter(keep, xs[1..]), Filter(keep, ys);
      assert Filter(keep, zs) == head + (front + back) && Filter(keep, xs) == head + front;
      assert head + (front + back) == (head + front) + back;
    }
  }

  lemma {:induction false} FilterMembers<T(!new)>(keep: T -> bool, xs: seq<T>)
    ensures forall x :: x in Filter(keep, xs) <==> x in xs && keep(x)
  {
    if xs != [] {
      FilterMembers(keep, xs[1..]);
    }
  }

  lemma {:induction false} StripTwice(s: string)
    ensures Strip(Strip(s)) == Strip(s)
    decreases |s|
  {
    if s != "" {
      if Blank(s[0]) {
        StripTwice(s[1..]);
      } else if Blank(s[|s| - 1]) {
        StripTwice(s[..|s| - 1]);
      }
    }
  }
}
