/** Text templates in the RPM macro syntax.

    Every string the extension writes into a package specification is a
    format string filled with configuration values. A template keeps the
    three kinds of text apart: fixed text of the extension (`Lit`), text
    taken from the configuration (`Val`), and references to RPM macros
    written `%{name}` (`Ref`). Rendering a template yields the exact string
    the extension writes. */
module Template {
  import opened Text

  datatype Piece =
    | Lit(text: string)   // fixed text written by the extension
    | Val(text: string)   // text supplied by the configuration, opaque here
    | Ref(name: string)   // a macro reference, rendered `%{name}`

  type Template = seq<Piece>

  /** A reference to the macro `name` in RPM syntax. */
  function MacroRef(name: string): string
  {
    "%{" + name + "}"
  }

  function RenderPiece(p: Piece): string
  {
    match p
    case Lit(s) => s
    case Val(s) => s
    case Ref(n) => MacroRef(n)
  }

  /** The exact string a template stands for. */
  function Render(t: Template): string
  {
    if t == [] then "" else RenderPiece(t[0]) + Render(t[1..])
  }

  lemma Render1(a: Piece)
    ensures Render([a]) == RenderPiece(a)
  {
    assert [a][1..] == [];
  }

  lemma Render2(a: Piece, b: Piece)
    ensures Render([a, b]) == RenderPiece(a) + RenderPiece(b)
  {
    assert [a, b][1..] == [b];
    Render1(b);
  }

  lemma Render3(a: Piece, b: Piece, c: Piece)
    ensures Render([a, b, c]) == RenderPiece(a) + RenderPiece(b) + RenderPiece(c)
  {
    assert [a, b, c][1..] == [b, c];
    Render2(b, c);
  }

  lemma Render4(a: Piece, b: Piece, c: Piece, d: Piece)
    ensures Render([a, b, c, d]) == RenderPiece(a) + RenderPiece(b) + RenderPiece(c) + RenderPiece(d)
  {
    assert [a, b, c, d][1..] == [b, c, d];
    Render3(b, c, d);
  }

  lemma Render5(a: Piece, b: Piece, c: Piece, d: Piece, e: Piece)
    ensures Render([a, b, c, d, e])
         == RenderPiece(a) + RenderPiece(b) + RenderPiece(c) + RenderPiece(d) + RenderPiece(e)
  {
    assert [a, b, c, d, e][1..] == [b, c, d, e];
    Render4(b, c, d, e);
  }

  /** A template that opens with non-empty fixed text renders to a string
      opening with its first character. */
  lemma RenderFirstChar(t: Template)
    requires t != [] && t[0].Lit? && t[0].text != []
    ensures |Render(t)| > 0 && Render(t)[0] == t[0].text[0]
  {
  }

  /** Rendering each template of a list, in order. */
  function RenderAll(ts: seq<Template>): (r: seq<string>)
    ensures |r| == |ts|
    ensures forall i :: 0 <= i < |ts| ==> r[i] == Render(ts[i])
  {
    if ts == [] then [] else [Render(ts[0])] + RenderAll(ts[1..])
  }

  /** Three appends in a row append their concatenation. */
  lemma AppendThree<T>(o: seq<T>, l: seq<T>, a: seq<T>, b: seq<T>, c: seq<T>, abc: seq<T>)
    requires l == o + a + b + c
    requires abc == a + b + c
    ensures l == o + abc
  {
  }

  lemma RenderAllAppendAfter(prefix: seq<string>, ts: seq<Template>, more: seq<Template>)
    ensures prefix + RenderAll(ts) + RenderAll(more) == prefix + RenderAll(ts + more)
  {
    RenderAllAppend(ts, more);
  }

  /** Appending the rendering of `more` to lines that render `ts` gives
      the rendering of `ts + more`. */
  lemma AppendRendered(prefix: seq<string>, lines: seq<string>, ts: seq<Template>, more: seq<Template>)
    requires lines == prefix + RenderAll(ts)
    ensures lines + RenderAll(more) == prefix + RenderAll(ts + more)
  {
    RenderAllAppendAfter(prefix, ts, more);
  }

  /** The names of the macros a template references. */
  function Refs(t: Template): set<string>
  {
    set i | 0 <= i < |t| && t[i].Ref? :: t[i].name
  }

  /** The macro a piece references, if any. */
  function PieceRefs(p: Piece): set<string>
  {
    if p.Ref? then {p.name} else {}
  }

  lemma Refs1(a: Piece)
    ensures Refs([a]) == PieceRefs(a)
  {
    assert [a][0] == a;
  }

  lemma Refs2(a: Piece, b: Piece)
    ensures Refs([a, b]) == PieceRefs(a) + PieceRefs(b)
  {
    assert [a, b][0] == a && [a, b][1] == b;
  }

  lemma Refs3(a: Piece, b: Piece, c: Piece)
    ensures Refs([a, b, c]) == PieceRefs(a) + PieceRefs(b) + PieceRefs(c)
  {
    assert [a, b, c][0] == a && [a, b, c][1] == b && [a, b, c][2] == c;
  }

  lemma Refs5(a: Piece, b: Piece, c: Piece, d: Piece, e: Piece)
    ensures Refs([a, b, c, d, e]) == PieceRefs(a) + PieceRefs(b) + PieceRefs(c) + PieceRefs(d) + PieceRefs(e)
  {
    var t := [a, b, c, d, e];
    assert t[0] == a && t[1] == b && t[2] == c && t[3] == d && t[4] == e;
  }

  lemma RefsAppend(a: Template, b: Template)
    ensures Refs(a + b) == Refs(a) + Refs(b)
  {
    forall n | n in Refs(a + b)
      ensures n in Refs(a) + Refs(b)
    {
      var i :| 0 <= i < |a + b| && (a + b)[i].Ref? && (a + b)[i].name == n;
      if i < |a| {
        assert a[i] == (a + b)[i];
      } else {
        assert b[i - |a|] == (a + b)[i];
      }
    }
    forall n | n in Refs(a)
      ensures n in Refs(a + b)
    {
      var i :| 0 <= i < |a| && a[i].Ref? && a[i].name == n;
      assert (a + b)[i] == a[i];
    }
    forall n | n in Refs(b)
      ensures n in Refs(a + b)
    {
      var i :| 0 <= i < |b| && b[i].Ref? && b[i].name == n;
      assert (a + b)[|a| + i] == b[i];
    }
  }

  lemma {:induction false} RenderAppend(a: Template, b: Template)
    ensures Render(a + b) == Render(a) + Render(b)
  {
    if a == [] {
      assert a + b == b;
    } else {
      assert (a + b)[1..] == a[1..] + b;
      RenderAppend(a[1..], b);
    }
  }

  lemma RenderAllAppend(a: seq<Template>, b: seq<Template>)
    ensures RenderAll(a + b) == RenderAll(a) + RenderAll(b)
  {
    var l, r := RenderAll(a + b), RenderAll(a) + RenderAll(b);
    assert |l| == |r|;
    forall i | 0 <= i < |l|
      ensures l[i] == r[i]
    {
      if i < |a| {
        assert (a + b)[i] == a[i];
      } else {
        assert (a + b)[i] == b[i - |a|];
      }
    }
  }

  /** Each macro a template references is visible in its rendered text. */
  lemma {:induction false} RefIsRendered(t: Template, n: string)
    requires n in Refs(t)
    ensures Contains(Render(t), MacroRef(n))
  {
    var w := MacroRef(n);
    var head, tail := RenderPiece(t[0]), Render(t[1..]);
    assert Render(t) == head + tail;
    if t[0] == Ref(n) {
      OccursAtStart(w, tail);
    } else {
      var k :| 0 <= k < |t| && t[k].Ref? && t[k].name == n;
      assert t[1..][k - 1] == t[k];
      RefIsRendered(t[1..], n);
      var j :| OccursAt(tail, w, j);
      OccursAfterPrefix(head, tail, w, j);
    }
  }
}
