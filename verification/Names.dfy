/** Dotted addresses (myframe/common.cpp:188-206). */
module Names {

  /** The pieces between dots; an address without dots is one piece. */
  function Pieces(s: string): (r: seq<string>)
    ensures |r| >= 1
  {
    if s == "" then [""]
    else
      var r := Pieces(s[1..]);
      if s[0] == '.' then [""] + r else [[s[0]] + r[0]] + r[1..]
  }

  function Join(tokens: seq<string>): string
  {
    if tokens == [] then ""
    else if |tokens| == 1 then tokens[0]
    else tokens[0] + "." + Join(tokens[1..])
  }

  predicate DotFree(s: string)
  {
    forall i :: 0 <= i < |s| ==> s[i] != '.'
  }

  /** What SplitMsgName stores: nothing for the empty name. */
  function Split(name: string): seq<string>
  {
    if name == "" then [] else Pieces(name)
  }

  lemma {:induction false} PiecesOfDotFree(s: string)
    requires DotFree(s)
    ensures Pieces(s) == [s]
  {
    if s == "" {
    } else {
      PiecesOfDotFree(s[1..]);
      assert s == [s[0]] + s[1..];
    }
  }

  lemma {:induction false} PiecesAtDot(s: string, rest: string)
    requires DotFree(s)
    ensures Pieces(s + "." + rest) == [s] + Pieces(rest)
  {
    if s == "" {
      assert (s + "." + rest)[1..] == rest;
    } else {
      PiecesAtDot(s[1..], rest);
      assert (s + "." + rest)[1..] == s[1..] + "." + rest;
      assert s == [s[0]] + s[1..];
    }
  }

  /** One position of the scan: what is left from `startPos` on, and the piece collected so far. */
  lemma ScanStep(name: string, startPos: nat, i: nat)
    requires startPos <= i < |name| && DotFree(name[startPos..i])
    ensures if name[i] == '.' then Pieces(name[startPos..]) == [name[startPos..i]] + Pieces(name[i + 1..])
            else DotFree(name[startPos..i + 1])
  {
    assert name[startPos..i + 1] == name[startPos..i] + [name[i]];
    if name[i] == '.' {
      PiecesAtDot(name[startPos..i], name[i + 1..]);
      assert name[startPos..] == name[startPos..i] + "." + name[i + 1..];
    }
  }

  method SplitMsgName(name: string) returns (tokens: seq<string>)
    ensures tokens == Split(name)
  {
    hide Pieces, DotFree;
    tokens := [];
    var startPos := 0;
    assert DotFree(name[0..0]) by { NothingDotFree(); }
    assert name[0..] == name;
    for i := 0 to |name|
      invariant 0 <= startPos <= i
      invariant i < |name| || name == "" ==> DotFree(name[startPos..i])
      invariant if i < |name| || name == "" then tokens + Pieces(name[startPos..]) == Pieces(name)
                else tokens == Pieces(name)
      invariant name == "" ==> tokens == []
    {
      ScanStep(name, startPos, i);
      if name[i] == '.' {
        tokens := tokens + [name[startPos..i]];
        startPos := i + 1;
        assert name[startPos..i + 1] == "";
        NothingDotFree();
      }
      if i == |name| - 1 {
        PiecesOfDotFree(name[startPos..i + 1]);
        assert name[startPos..] == name[startPos..i + 1];
        tokens := tokens + [name[startPos..i + 1]];
      }
    }
  }

  lemma NothingDotFree()
    ensures DotFree("")
  {
  }

  /** No piece contains a dot. */
  lemma {:induction false} PiecesDotFree(s: string)
    ensures forall i :: 0 <= i < |Pieces(s)| ==> DotFree(Pieces(s)[i])
  {
    if s == "" {
    } else {
      PiecesDotFree(s[1..]);
    }
  }

  lemma JoinCons(t: string, ts: seq<string>)
    requires ts != []
    ensures Join([t] + ts) == t + "." + Join(ts)
  {
    assert ([t] + ts)[1..] == ts;
  }

  lemma JoinLonger(c: char, t: string, ts: seq<string>)
    ensures Join([[c] + t] + ts) == [c] + Join([t] + ts)
  {
    if ts != [] {
      JoinCons([c] + t, ts);
      JoinCons(t, ts);
    }
  }

  /** Joining the pieces with dots gives the name back. */
  lemma {:induction false} JoinPieces(s: string)
    ensures Join(Pieces(s)) == s
  {
    if s == "" {
    } else {
      var r := Pieces(s[1..]);
      JoinPieces(s[1..]);
      if s[0] == '.' {
        JoinCons("", r);
      } else {
        assert r == [r[0]] + r[1..];
        JoinLonger(s[0], r[0], r[1..]);
      }
    }
  }

  lemma {:induction false} PiecesOfJoin(ts: seq<string>)
    requires ts != [] && forall i :: 0 <= i < |ts| ==> DotFree(ts[i])
    ensures Pieces(Join(ts)) == ts
  {
    if |ts| == 1 {
      PiecesOfDotFree(ts[0]);
    } else {
      PiecesOfJoin(ts[1..]);
      PiecesAtDot(ts[0], Join(ts[1..]));
    }
  }

  /** Splitting what was joined gives the tokens back, except for the single empty token, which splits to none. */
  lemma SplitOfJoin(ts: seq<string>)
    requires ts != [] && forall i :: 0 <= i < |ts| ==> DotFree(ts[i])
    ensures Split(Join(ts)) == ts <==> ts != [""]
  {
    PiecesOfJoin(ts);
  }

  lemma Prepended(c: char, p: seq<string>, q: seq<string>)
    requires p != []
    ensures [[c] + (p + q)[0]] + (p + q)[1..] == ([[c] + p[0]] + p[1..]) + q
    ensures [""] + (p + q) == ([""] + p) + q
  {
  }

  /** The pieces of two names joined by a dot are the pieces of both. */
  lemma {:induction false} PiecesConcat(a: string, b: string)
    ensures Pieces(a + "." + b) == Pieces(a) + Pieces(b)
  {
    if a == "" {
      PiecesAtDot("", b);
    } else {
      PiecesConcat(a[1..], b);
      assert (a + "." + b)[1..] == a[1..] + "." + b;
      Prepended(a[0], Pieces(a[1..]), Pieces(b));
    }
  }

  predicate ThreePart(addr: string)
  {
    |Split(addr)| == 3
  }
}
