/**
 * FileListLatestParams: the fluent builder for the parameters of a
 * latest-torrents request. All three fields are optional and start out null;
 * ToString emits "&limit=", "&imdb=" and "&category=" for those that are set.
 */
module LatestParams {
  import opened Wrappers
  import opened Runtime
  import opened Validation
  import opened QueryString

  const LimitMessage := "Invalid limit provided in FileListLatestParams. Valid limits are 1-100"
  const ImdbMessage := "When using the IMDb search type you can only use IMDb IDs (as tt0000000 or 0000000)"

  /** The fields of a builder at one moment. */
  datatype LatestState = LatestState(limit: Option<Int32>, imdb: Option<string>, category: Option<seq<Int32>>)

  /** A new builder: nothing set. */
  const Empty := LatestState(None, None, None)

  function CategoryText(category: Option<seq<Int32>>): Option<string>
  {
    if category.Some? then Some(JoinInts(category.value)) else None
  }

  /** The parameters sent, in the fixed order limit, imdb, category, each only when set. */
  function Params(s: LatestState): (r: seq<Param>)
    ensures |r| == (if s.limit.Some? then 1 else 0) + (if s.imdb.Some? then 1 else 0)
                   + (if s.category.Some? then 1 else 0)
    ensures r == [] <==> s == Empty
  {
    OptParam("limit", FormatOpt(s.limit)) + OptParam("imdb", s.imdb) + OptParam("category", CategoryText(s.category))
  }

  /**
   * What ToString returns for a builder in state s: empty exactly when
   * nothing is set, and otherwise starting with the '&' of its first field.
   */
  function Serialize(s: LatestState): (r: string)
    ensures r == "" <==> s == Empty
    ensures r != "" ==> r[0] == '&'
  {
    var ps := Params(s);
    assert ps != [] ==> Render(ps)[0] == '&';
    Render(ps)
  }

  /** What the setters let through: a limit within 1..100, an id the IMDb pattern matches. */
  predicate WellFormed(s: LatestState)
  {
    && (s.limit.Some? ==> ValidLimit(s.limit.value))
    && (s.imdb.Some? ==> ImdbRegexIsMatch(s.imdb.value))
  }

  class FileListLatestParams {
    var limit: Option<Int32>
    var imdb: Option<string>
    var category: array?<Int32>

    /** The builder's fields are always well formed. */
    ghost predicate Valid()
      reads this, category
    {
      WellFormed(State())
    }

    /** The current fields, with the category array read at this moment. */
    function State(): LatestState
      reads this, category
    {
      LatestState(limit, imdb, if category == null then None else Some(category[..]))
    }

    constructor ()
      ensures Valid()
      ensures State() == Empty
    {
      limit := None;
      imdb := None;
      category := null;
    }

    /** Builds the query string by appending each set field in turn to "". */
    method ToString() returns (r: string)
      ensures r == Serialize(State())
    {
      ghost var s := State();
      var final := "";
      // `expected` is the text the fields handled so far should have produced
      ghost var expected := "";
      final := AppendIfSet(final, "limit", FormatOpt(limit));
      expected := expected + Render(OptParam("limit", FormatOpt(s.limit)));
      assert final == expected;
      final := AppendIfSet(final, "imdb", imdb);
      expected := expected + Render(OptParam("imdb", s.imdb));
      assert final == expected;
      final := AppendIfSet(final, "category", if category != null then Some(JoinInts(category[..])) else None);
      expected := expected + Render(OptParam("category", CategoryText(s.category)));
      assert final == expected;
      RenderedInOrder(s);
      return final;
    }

    /** Sets the number of torrents returned; only 1..100 is taken. */
    method Limit(n: Int32) returns (r: Result<FileListLatestParams, Exception>)
      requires Valid()
      modifies this`limit
      ensures Valid()
      ensures ValidLimit(n) ==> r == Success(this) && limit == Some(n)
      ensures !ValidLimit(n) ==> r == Failure(ArgumentException(LimitMessage)) && limit == old(limit)
    {
      if n < 1 || n > 100 {
        return Failure(ArgumentException(LimitMessage));
      }
      limit := Some(n);
      return Success(this);
    }

    /** Sets the IMDb id to filter by; only a string the IMDb pattern matches is taken. */
    method Imdb(id: string) returns (r: Result<FileListLatestParams, Exception>)
      requires Valid()
      modifies this`imdb
      ensures Valid()
      ensures ImdbRegexIsMatch(id) ==> r == Success(this) && imdb == Some(id)
      ensures !ImdbRegexIsMatch(id) ==> r == Failure(ArgumentException(ImdbMessage)) && imdb == old(imdb)
    {
      if !ImdbRegexIsMatch(id) {
        return Failure(ArgumentException(ImdbMessage));
      }
      imdb := Some(id);
      return Success(this);
    }

    /**
     * Sets the category array, refusing it only when every id is outside
     * 1..27. The array itself is kept, not a copy.
     */
    method Categories(categories: array<Int32>) returns (r: Result<FileListLatestParams, Exception>)
      requires Valid()
      modifies this`category
      ensures Valid()
      ensures AllInvalid(categories[..]) ==>
                r == Failure(ArgumentException(CategoryMessage)) && category == old(category)
      ensures !AllInvalid(categories[..]) ==> r == Success(this) && category == categories
    {
      if forall k :: 0 <= k < categories.Length ==> InvalidCategory(categories[k]) {
        return Failure(ArgumentException(CategoryMessage));
      }
      category := categories;
      return Success(this);
    }
  }

  // ---------------------------------------------------------------------------
  // Properties of the serialised form

  /** The output is each field's "&key=value" (or nothing), in the fixed order. */
  lemma RenderedInOrder(s: LatestState)
    ensures Serialize(s)
         == "" + Render(OptParam("limit", FormatOpt(s.limit))) + Render(OptParam("imdb", s.imdb))
            + Render(OptParam("category", CategoryText(s.category)))
  {
    var a, b, c := OptParam("limit", FormatOpt(s.limit)), OptParam("imdb", s.imdb), OptParam("category", CategoryText(s.category));
    RenderAppend(a, b);
    RenderAppend(a + b, c);
    assert "" + Render(a) == Render(a);
  }

  lemma ParamsUnambiguous(s: LatestState)
    requires s.imdb.Some? ==> '&' !in s.imdb.value
    ensures AllUnambiguous(Params(s))
  {
    var a, b, c := OptParam("limit", FormatOpt(s.limit)), OptParam("imdb", s.imdb), OptParam("category", CategoryText(s.category));
    if s.limit.Some? {
      FormatIntChars(s.limit.value, '&');
    }
    if s.category.Some? {
      JoinIntsChars(s.category.value, '&');
    }
    OptParamUnambiguous("limit", FormatOpt(s.limit));
    OptParamUnambiguous("imdb", s.imdb);
    OptParamUnambiguous("category", CategoryText(s.category));
    AllUnambiguousAppend(a, b);
    AllUnambiguousAppend(a + b, c);
  }

  /**
   * As long as the IMDb id holds no '&', reading the output back yields each
   * set field once, under its own name, with a value that reads back as the
   * stored one; unset fields are absent.
   */
  lemma SerializeReadsBack(s: LatestState)
    requires s.imdb.Some? ==> '&' !in s.imdb.value
    ensures Parse(Serialize(s)) == Params(s)
    ensures Count(Parse(Serialize(s)), "limit") == (if s.limit.Some? then 1 else 0)
    ensures Count(Parse(Serialize(s)), "imdb") == (if s.imdb.Some? then 1 else 0)
    ensures Count(Parse(Serialize(s)), "category") == (if s.category.Some? then 1 else 0)
    ensures var l := Lookup(Parse(Serialize(s)), "limit");
      l.Some? <==> s.limit.Some? && (l.Some? ==> ParseInt(l.value) == Some(s.limit.value as int))
    ensures Lookup(Parse(Serialize(s)), "imdb") == s.imdb
    ensures var c := Lookup(Parse(Serialize(s)), "category");
      c.Some? <==> s.category.Some? && (c.Some? ==> ParseIntList(c.value) == Some(s.category.value))
  {
    ParamsUnambiguous(s);
    ParseRender(Params(s));
    assert Parse(Serialize(s)) == Params(s);
    ParamsCounts(s);
    ParamsLookups(s);
    if s.category.Some? {
      JoinIntsRoundTrip(s.category.value);
    }
  }

  /** Each field's name occurs once among the parameters when it is set, and not at all otherwise. */
  lemma ParamsCounts(s: LatestState)
    ensures Count(Params(s), "limit") == (if s.limit.Some? then 1 else 0)
    ensures Count(Params(s), "imdb") == (if s.imdb.Some? then 1 else 0)
    ensures Count(Params(s), "category") == (if s.category.Some? then 1 else 0)
  {
    var a, b, c := OptParam("limit", FormatOpt(s.limit)), OptParam("imdb", s.imdb), OptParam("category", CategoryText(s.category));
    assert "limit"[0] != "imdb"[0] && "limit"[0] != "category"[0] && "imdb"[0] != "category"[0];
    CountAppend(a, b, "limit");
    CountAppend(a + b, c, "limit");
    CountAppend(a, b, "imdb");
    CountAppend(a + b, c, "imdb");
    CountAppend(a, b, "category");
    CountAppend(a + b, c, "category");
  }

  /** Looking a field's name up among the parameters finds its text. */
  lemma ParamsLookups(s: LatestState)
    ensures Lookup(Params(s), "limit") == FormatOpt(s.limit)
    ensures Lookup(Params(s), "imdb") == s.imdb
    ensures Lookup(Params(s), "category") == CategoryText(s.category)
  {
    var a, b, c := OptParam("limit", FormatOpt(s.limit)), OptParam("imdb", s.imdb), OptParam("category", CategoryText(s.category));
    assert "limit"[0] != "imdb"[0] && "limit"[0] != "category"[0] && "imdb"[0] != "category"[0];
    LookupAppend(a, b, "limit");
    LookupAppend(a + b, c, "limit");
    LookupAppend(a, b, "imdb");
    LookupAppend(a + b, c, "imdb");
    LookupAppend(a, b, "category");
    LookupAppend(a + b, c, "category");
  }

  /**
   * On a well-formed builder whose IMDb id holds no '&', the receiver reads
   * the limit, when there is one, as a number within 1..100, and the IMDb id
   * as one the pattern matches.
   */
  lemma WellFormedReadsBack(s: LatestState)
    requires WellFormed(s)
    requires s.imdb.Some? ==> '&' !in s.imdb.value
    ensures var l := Lookup(Parse(Serialize(s)), "limit");
      l.Some? ==> ParseInt(l.value).Some? && ValidLimit(ParseInt(l.value).value)
    ensures var i := Lookup(Parse(Serialize(s)), "imdb");
      i.Some? ==> ImdbRegexIsMatch(i.value)
  {
    SerializeReadsBack(s);
  }

  /**
   * The IMDb id is only required to contain "tt" and is sent without
   * encoding, so an id such as "tt1&limit=500" is accepted and makes the
   * receiver read a limit the limit setter would have refused.
   */
  lemma ImdbSmugglesLimit()
    ensures ImdbRegexIsMatch("tt1&limit=500")
    ensures var s := Empty.(imdb := Some("tt1&limit=500"));
      Parse(Serialize(s)) == [Param("imdb", "tt1"), Param("limit", "500")]
  {
    var id := "tt1&limit=500";
    assert TTAt(id, 0);
    ImdbRegexIsMatchIff(id);
    var s := Empty.(imdb := Some(id));
    assert Params(s) == [Param("imdb", id)];
    RenderOne(Param("imdb", id));
    ImdbSmuggledText(id);
  }

  lemma ImdbSmuggledText(id: string)
    requires id == "tt1&limit=500"
    ensures Parse("&" + "imdb" + "=" + id) == [Param("imdb", "tt1"), Param("limit", "500")]
  {
    var ps := [Param("imdb", "tt1"), Param("limit", "500")];
    RenderCons(ps[0], ps[1..]);
    assert ps[1..] == [ps[1]];
    RenderOne(ps[1]);
    assert "&" + "imdb" + "=" + id == Render(ps);
    assert Unambiguous(ps[0]) && Unambiguous(ps[1]);
    ParseRender(ps);
  }

  // ---------------------------------------------------------------------------
  // Builders used as the library's callers use them

  /** A new builder serialises to the empty string. */
  method NothingSet() returns (r: string)
    ensures r == ""
  {
    var p := new FileListLatestParams();
    r := p.ToString();
  }

  /** An out-of-range limit is refused and leaves the output unchanged. */
  method LimitRefused(n: Int32) returns (r: Result<FileListLatestParams, Exception>, s: string)
    requires !ValidLimit(n)
    ensures r == Failure(ArgumentException(LimitMessage))
    ensures s == ""
  {
    var p := new FileListLatestParams();
    r := p.Limit(n);
    s := p.ToString();
  }

  /** The documented latest-torrents request: an IMDb id and category 21. */
  method DocumentedLatest(id: string) returns (r: string)
    requires ImdbRegexIsMatch(id)
    ensures r == "&imdb=" + id + "&category=21"
  {
    var p := new FileListLatestParams();
    var _ := p.Imdb(id);
    var categories := new Int32[1];
    categories[0] := 21;
    assert categories[..] == [21];
    var _ := p.Categories(categories);
    assert p.State() == Empty.(imdb := Some(id), category := Some([21]));
    r := p.ToString();
    DocumentedState(id);
  }

  lemma DocumentedState(id: string)
    ensures Serialize(Empty.(imdb := Some(id), category := Some([21]))) == "&imdb=" + id + "&category=21"
  {
    var s := Empty.(imdb := Some(id), category := Some([21]));
    assert FormatNat(21) == FormatNat(2) + ['1'];
    assert JoinInts([21]) == "21";
    assert Params(s) == [Param("imdb", id)] + [Param("category", "21")];
    RenderCons(Param("imdb", id), [Param("category", "21")]);
    CategoryRendered();
  }

  lemma CategoryRendered()
    ensures Render([Param("category", "21")]) == "&category=21"
  {
    RenderOne(Param("category", "21"));
  }
}
