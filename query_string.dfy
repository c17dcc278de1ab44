/**
 * The `&key=value` parameter strings both builders produce, and a reference
 * reader for them (split at '&', then each piece at its first '='), used to
 * state what a receiver of the serialised string gets back.
 */
module QueryString {
  import opened Wrappers
  import opened Runtime

  datatype Param = Param(key: string, value: string)

  /** "&key=value" for every parameter, in order. */
  function Render(ps: seq<Param>): string
  {
    if ps == [] then "" else "&" + ps[0].key + "=" + ps[0].value + Render(ps[1..])
  }

  /** Rendering distributes over concatenation: fields appended one by one render as the whole list. */
  lemma {:induction false} RenderAppend(a: seq<Param>, b: seq<Param>)
    ensures Render(a + b) == Render(a) + Render(b)
  {
    if a == [] {
      assert a + b == b;
    } else {
      assert (a + b)[1..] == a[1..] + b;
      RenderAppend(a[1..], b);
    }
  }

  /** The parameter an optional value contributes: one when it is present, none otherwise. */
  function OptParam(key: string, value: Option<string>): (r: seq<Param>)
    ensures |r| <= 1
  {
    if value.Some? then [Param(key, value.value)] else []
  }

  /** A single parameter renders as "&key=value". */
  lemma RenderOne(p: Param)
    ensures Render([p]) == "&" + p.key + "=" + p.value
  {
    assert [p][1..] == [];
  }

  /** Reads one "key=value" piece: the key runs up to the first '='. */
  function ParseParam(piece: string): Param
  {
    if '=' in piece then
      var i := IndexOf(piece, '=');
      Param(piece[..i], piece[i + 1..])
    else Param(piece, "")
  }

  /** Reads the pieces between '&'s, skipping empty ones. */
  function ParsePieces(pieces: seq<string>): seq<Param>
  {
    if pieces == [] then []
    else if pieces[0] == "" then ParsePieces(pieces[1..])
    else [ParseParam(pieces[0])] + ParsePieces(pieces[1..])
  }

  /** The parameters a receiver reads out of a query string. */
  function Parse(q: string): seq<Param>
  {
    ParsePieces(Split(q, '&'))
  }

  /** A parameter survives rendering and parsing: no '&' anywhere, no '=' in its key. */
  predicate Unambiguous(p: Param)
  {
    '&' !in p.key && '=' !in p.key && '&' !in p.value
  }

  predicate AllUnambiguous(ps: seq<Param>)
  {
    forall k :: 0 <= k < |ps| ==> Unambiguous(ps[k])
  }

  function Piece(p: Param): string
  {
    p.key + "=" + p.value
  }

  function Pieces(ps: seq<Param>): (r: seq<string>)
    ensures |r| == |ps|
  {
    if ps == [] then [] else [Piece(ps[0])] + Pieces(ps[1..])
  }

  lemma {:induction false} SplitRender(head: string, ps: seq<Param>)
    requires '&' !in head
    requires AllUnambiguous(ps)
    ensures Split(head + Render(ps), '&') == [head] + Pieces(ps)
    decreases |ps|
  {
    if ps == [] {
      assert head + Render(ps) == head;
      SplitNoSeparator(head, '&');
    } else {
      var kv := Piece(ps[0]);
      var t := kv + Render(ps[1..]);
      PieceHasNoAmpersand(ps[0]);
      assert Render(ps) == ['&'] + t;
      assert head + Render(ps) == head + ['&'] + t;
      SplitAtFirst(head, '&', t);
      SplitRender(kv, ps[1..]);
      assert Pieces(ps) == [kv] + Pieces(ps[1..]);
    }
  }

  lemma PieceHasNoAmpersand(p: Param)
    requires Unambiguous(p)
    ensures '&' !in Piece(p)
  {
    assert Piece(p) == p.key + "=" + p.value;
  }

  lemma ParsePiece(p: Param)
    requires Unambiguous(p)
    ensures ParseParam(Piece(p)) == p
  {
    var s := Piece(p);
    assert s[|p.key|] == '=';
    var i := IndexOf(s, '=');
    assert i == |p.key|;
    assert s[..i] == p.key;
    assert s[i + 1..] == p.value;
  }

  lemma {:induction false} ParsePiecesOf(ps: seq<Param>)
    requires AllUnambiguous(ps)
    ensures ParsePieces(Pieces(ps)) == ps
  {
    if ps != [] {
      assert Piece(ps[0]) != "";
      ParsePiece(ps[0]);
      ParsePiecesOf(ps[1..]);
    }
  }

  /**
   * A leading piece followed by rendered parameters reads back as the leading
   * piece (if it is not empty) followed by exactly those parameters.
   */
  lemma ParseAfterHead(head: string, ps: seq<Param>)
    requires '&' !in head
    requires AllUnambiguous(ps)
    ensures Parse(head + Render(ps)) == ParsePieces([head]) + ps
  {
    var pieces := [head] + Pieces(ps);
    SplitRender(head, ps);
    ParsePiecesOf(ps);
    assert pieces[0] == head && pieces[1..] == Pieces(ps);
    assert [head][1..] == [];
    if head == "" {
      assert ParsePieces(pieces) == ParsePieces(Pieces(ps));
      assert ParsePieces([head]) == [];
    } else {
      assert ParsePieces(pieces) == [ParseParam(head)] + ParsePieces(Pieces(ps));
      assert ParsePieces([head]) == [ParseParam(head)];
    }
  }

  /** Rendered parameters read back as themselves. */
  lemma ParseRender(ps: seq<Param>)
    requires AllUnambiguous(ps)
    ensures Parse(Render(ps)) == ps
  {
    ParseAfterHead("", ps);
    assert "" + Render(ps) == Render(ps);
  }

  /** How many of the parameters carry the given key. */
  function Count(ps: seq<Param>, key: string): nat
  {
    if ps == [] then 0 else (if ps[0].key == key then 1 else 0) + Count(ps[1..], key)
  }

  /** The value of the first parameter with the given key, if there is one. */
  function Lookup(ps: seq<Param>, key: string): Option<string>
  {
    if ps == [] then None else if ps[0].key == key then Some(ps[0].value) else Lookup(ps[1..], key)
  }

  lemma {:induction false} CountAppend(a: seq<Param>, b: seq<Param>, key: string)
    ensures Count(a + b, key) == Count(a, key) + Count(b, key)
  {
    if a == [] {
      assert a + b == b;
    } else {
      assert (a + b)[1..] == a[1..] + b;
      CountAppend(a[1..], b, key);
    }
  }

  lemma {:induction false} LookupAppend(a: seq<Param>, b: seq<Param>, key: string)
    ensures Lookup(a + b, key) == if Lookup(a, key).Some? then Lookup(a, key) else Lookup(b, key)
  {
    if a == [] {
      assert a + b == b;
    } else {
      assert (a + b)[1..] == a[1..] + b;
      LookupAppend(a[1..], b, key);
    }
  }

  /** A value with no '&' can be read back, so a parameter of such value and a plain key is unambiguous. */
  lemma OptParamUnambiguous(key: string, value: Option<string>)
    requires '&' !in key && '=' !in key
    requires value.Some? ==> '&' !in value.value
    ensures AllUnambiguous(OptParam(key, value))
  {
  }

  lemma RenderCons(p: Param, ps: seq<Param>)
    ensures Render([p] + ps) == "&" + p.key + "=" + p.value + Render(ps)
  {
    assert ([p] + ps)[0] == p;
    assert ([p] + ps)[1..] == ps;
  }

  /** A leading "key=value" piece (no '&', no '=' in the key) reads back as that parameter. */
  lemma ParseLeading(key: string, value: string, ps: seq<Param>)
    requires Unambiguous(Param(key, value))
    requires AllUnambiguous(ps)
    ensures Parse(key + "=" + value + Render(ps)) == [Param(key, value)] + ps
  {
    var head := Piece(Param(key, value));
    PieceHasNoAmpersand(Param(key, value));
    ParseAfterHead(head, ps);
    ParsePiece(Param(key, value));
    assert head != "";
    assert [head][1..] == [];
    assert ParsePieces([head]) == [Param(key, value)] + ParsePieces([]);
  }

  lemma AllUnambiguousCons(p: Param, ps: seq<Param>)
    requires Unambiguous(p) && AllUnambiguous(ps)
    ensures AllUnambiguous([p] + ps)
  {
    forall k | 0 <= k < |[p] + ps| ensures Unambiguous(([p] + ps)[k]) {
      if k > 0 {
        assert ([p] + ps)[k] == ps[k - 1];
      }
    }
  }

  /** A "key=value" piece followed by one more parameter and a rendered list reads back as all of them. */
  lemma ParseLeadingTwo(k1: string, v1: string, k2: string, v2: string, ps: seq<Param>)
    requires Unambiguous(Param(k1, v1)) && Unambiguous(Param(k2, v2))
    requires AllUnambiguous(ps)
    ensures Parse(k1 + "=" + v1 + Render([Param(k2, v2)] + ps)) == [Param(k1, v1), Param(k2, v2)] + ps
  {
    AllUnambiguousCons(Param(k2, v2), ps);
    ParseLeading(k1, v1, [Param(k2, v2)] + ps);
    assert [Param(k1, v1)] + ([Param(k2, v2)] + ps) == [Param(k1, v1), Param(k2, v2)] + ps;
  }

  /** Appends "&<key>=<value>" when a value is given, and nothing otherwise. */
  method AppendIfSet(final: string, key: string, value: Option<string>) returns (r: string)
    ensures r == final + Render(OptParam(key, value))
  {
    r := final;
    if value.Some? {
      r := r + ("&" + key + "=" + value.value);
      RenderOne(Param(key, value.value));
    }
  }

  lemma AllUnambiguousAppend(a: seq<Param>, b: seq<Param>)
    requires AllUnambiguous(a) && AllUnambiguous(b)
    ensures AllUnambiguous(a + b)
  {
    forall k | 0 <= k < |a + b| ensures Unambiguous((a + b)[k]) {
      if k >= |a| {
        assert (a + b)[k] == b[k - |a|];
      }
    }
  }

  lemma AppendText(head: string, q: seq<Param>, opt: seq<Param>, act: seq<Param>)
    ensures head + Render(q + opt) + Render(act) == head + Render(q + (opt + act))
  {
    var x, y := Render(q + opt), Render(act);
    assert q + opt + act == q + (opt + act);
    RenderAppend(q + opt, act);
    assert Render(q + (opt + act)) == x + y;
    assert head + x + y == head + (x + y);
  }
}
