/**
 * FileListSearchParams: the fluent builder for the parameters of a search.
 * Each setter validates its argument, stores it in its own field and returns
 * the builder; ToString turns the fields into the query string.
 */
module SearchParams {
  import opened Wrappers
  import opened Runtime
  import opened Validation
  import opened QueryString

  const TypeMessage := "The type can only be name or imdb."
  const ImdbQueryMessage := "When using the IMDb search type you can only use IMDb ids (as tt0000000 or 0000000)"
  const MissingQueryMessage := "The query for FileListSearchParams cannot be null."

  /** The two search types the builder accepts (after lower-casing). */
  predicate IsSearchType(t: string) { t == "name" || t == "imdb" }

  /** The fields of a builder at one moment. */
  datatype SearchState = SearchState(
    searchType: string,
    query: Option<string>,
    category: Option<seq<Int32>>,
    moderated: Option<Int32>,
    internal: Option<Int32>,
    freeleech: Option<Int32>,
    doubleup: Option<Int32>,
    season: Option<Int32>,
    episode: Option<Int32>)

  /** A new builder: type "name", no query, an empty category array, nothing else set. */
  const Fresh := SearchState("name", None, Some([]), None, None, None, None, None, None)

  /** The optional fields, each emitted as "&<key>=<value>" when set. */
  datatype SearchField = Category | Moderated | Internal | FreeLeech | DoubleUp | Season | Episode

  /** The parameter name each optional field is sent under. */
  function Key(f: SearchField): string
  {
    match f
    case Category => "category"
    case Moderated => "moderated"
    case Internal => "internal"
    case FreeLeech => "freeleech"
    case DoubleUp => "doubleup"
    case Season => "season"
    case Episode => "episode"
  }

  /** The text a set field is rendered as; None when the field is null. */
  function FieldValue(s: SearchState, f: SearchField): Option<string>
  {
    match f
    case Category => if s.category.Some? then Some(JoinInts(s.category.value)) else None
    case Moderated => FormatOpt(s.moderated)
    case Internal => FormatOpt(s.internal)
    case FreeLeech => FormatOpt(s.freeleech)
    case DoubleUp => FormatOpt(s.doubleup)
    case Season => FormatOpt(s.season)
    case Episode => FormatOpt(s.episode)
  }

  /** The parameter a field contributes: one when it is set, none otherwise. */
  function Emit(s: SearchState, f: SearchField): seq<Param>
  {
    OptParam(Key(f), FieldValue(s, f))
  }

  /** The optional part of the output: each set field, in the fixed order
      category, moderated, internal, freeleech, doubleup, season, episode. */
  function OptionalParams(s: SearchState): seq<Param>
  {
    Emit(s, Category) + Emit(s, Moderated) + Emit(s, Internal) + Emit(s, FreeLeech)
    + Emit(s, DoubleUp) + Emit(s, Season) + Emit(s, Episode)
  }

  /** The mandatory head of the output: the type and the query, the query inserted as it is. */
  function Head(s: SearchState): string
    requires s.query.Some?
  {
    "type=" + s.searchType + "&query=" + s.query.value
  }

  /** A 0/1 flag, as the boolean setters store it. */
  predicate IsFlag(v: Option<Int32>) { v.Some? ==> v.value in {0, 1} }

  /**
   * What a builder's fields always satisfy: an accepted type, a category
   * array that is never null (it starts empty and the setter takes only a
   * real array), and flags holding 0 or 1.
   */
  predicate WellFormed(s: SearchState)
  {
    && IsSearchType(s.searchType)
    && s.category.Some?
    && IsFlag(s.moderated) && IsFlag(s.internal) && IsFlag(s.freeleech) && IsFlag(s.doubleup)
  }

  /** What ToString returns or throws for a builder in state s. */
  function Serialize(s: SearchState): (r: Result<string, Exception>)
    ensures r.Failure? <==> s.query.None?
    ensures r.Failure? ==> r.error == ArgumentNullException("Query", MissingQueryMessage)
  {
    if s.query.None? then Failure(ArgumentNullException("Query", MissingQueryMessage))
    else Success(Head(s) + Render(OptionalParams(s)))
  }

  // ---------------------------------------------------------------------------
  // The builder

  class FileListSearchParams {
    var searchType: string
    var query: Option<string>
    var category: array?<Int32>
    var moderated: Option<Int32>
    var internal: Option<Int32>
    var freeleech: Option<Int32>
    var doubleup: Option<Int32>
    var season: Option<Int32>
    var episode: Option<Int32>

    /** The builder's fields are always well formed. */
    ghost predicate Valid()
      reads this, category
    {
      WellFormed(State())
    }

    /** The current fields, with the category array read at this moment. */
    function State(): SearchState
      reads this, category
    {
      SearchState(searchType, query, if category == null then None else Some(category[..]),
                  moderated, internal, freeleech, doubleup, season, episode)
    }

    constructor ()
      ensures Valid() && fresh(category)
      ensures State() == Fresh
    {
      searchType := "name";
      query := None;
      var empty := new Int32[0];
      assert empty[..] == [];
      category := empty;
      moderated, internal, freeleech, doubleup := None, None, None, None;
      season, episode := None, None;
    }

    /** Builds the query string step by step, appending each set field in turn. */
    method ToString() returns (r: Result<string, Exception>)
      ensures r == Serialize(State())
    {
      if query.None? {
        return Failure(ArgumentNullException("Query", MissingQueryMessage));
      }
      ghost var s := State();
      var final := "type=" + searchType + "&query=" + query.value;
      // `expected` is the text the fields handled so far should have produced
      ghost var expected := Head(s);

      final := AppendIfSet(final, Key(SearchField.Category), if category != null then Some(JoinInts(category[..])) else None);
      expected := expected + Render(Emit(s, SearchField.Category));
      assert final == expected;

      final := AppendIfSet(final, Key(SearchField.Moderated), FormatOpt(moderated));
      expected := expected + Render(Emit(s, SearchField.Moderated));
      assert final == expected;

      final := AppendIfSet(final, Key(SearchField.Internal), FormatOpt(internal));
      expected := expected + Render(Emit(s, SearchField.Internal));
      assert final == expected;

      final := AppendIfSet(final, Key(SearchField.FreeLeech), FormatOpt(freeleech));
      expected := expected + Render(Emit(s, SearchField.FreeLeech));
      assert final == expected;

      final := AppendIfSet(final, Key(SearchField.DoubleUp), FormatOpt(doubleup));
      expected := expected + Render(Emit(s, SearchField.DoubleUp));
      assert final == expected;

      final := AppendIfSet(final, Key(SearchField.Season), FormatOpt(season));
      expected := expected + Render(Emit(s, SearchField.Season));
      assert final == expected;

      final := AppendIfSet(final, Key(SearchField.Episode), FormatOpt(episode));
      expected := expected + Render(Emit(s, SearchField.Episode));
      assert final == expected;

      RenderedInOrder(s, Head(s));
      assert State() == s;
      return Success(final);
    }

    /** Sets the search type: "name" or "imdb", in any letter case. */
    method Type(t: string) returns (r: Result<FileListSearchParams, Exception>)
      requires Valid()
      modifies this`searchType
      ensures Valid()
      ensures IsSearchType(ToLower(t)) ==> r == Success(this) && searchType == ToLower(t)
      ensures !IsSearchType(ToLower(t)) ==>
                r == Failure(ArgumentException(TypeMessage)) && searchType == old(searchType)
    {
      var lowered := ToLower(t);
      if lowered == "name" || lowered == "imdb" {
        searchType := lowered;
      } else {
        return Failure(ArgumentException(TypeMessage));
      }
      return Success(this);
    }

    /** Sets the query; in imdb mode only a string the IMDb pattern matches is taken. */
    method Query(q: string) returns (r: Result<FileListSearchParams, Exception>)
      requires Valid()
      modifies this`query
      ensures Valid()
      ensures searchType == "imdb" && !ImdbRegexIsMatch(q) ==>
                r == Failure(ArgumentException(ImdbQueryMessage)) && query == old(query)
      ensures !(searchType == "imdb" && !ImdbRegexIsMatch(q)) ==>
                r == Success(this) && query == Some(q)
    {
      if searchType == "imdb" {
        if ImdbRegexIsMatch(q) {
          query := Some(q);
        } else {
          return Failure(ArgumentException(ImdbQueryMessage));
        }
      } else {
        query := Some(q);
      }
      return Success(this);
    }

    /**
     * Sets the category array, refusing it only when every id is outside
     * 1..27. The array itself is kept, not a copy.
     */
    method Categories(categories: array<Int32>) returns (r: Result<FileListSearchParams, Exception>)
      requires Valid()
      modifies this`category
      ensures Valid()
      ensures AllInvalid(categories[..]) ==>
                r == Failure(ArgumentException(CategoryMessage)) && category == old(category)
      ensures !AllInvalid(categories[..]) ==> r == Success(this) && category == categories
    {
      if forall k :: 0 <= k < categories.Length ==> InvalidCategory(categories[k]) {
        return Failure(ArgumentException(CategoryMessage));
      }
      category := categories;
      return Success(this);
    }

    method Moderated(b: bool) returns (r: FileListSearchParams)
      requires Valid()
      modifies this`moderated
      ensures Valid() && r == this
      ensures moderated == Some(if b then 1 else 0)
    {
      moderated := Some(if b then 1 else 0);
      return this;
    }

    method Internal(b: bool) returns (r: FileListSearchParams)
      requires Valid()
      modifies this`internal
      ensures Valid() && r == this
      ensures internal == Some(if b then 1 else 0)
    {
      internal := Some(if b then 1 else 0);
      return this;
    }

    method FreeLeech(b: bool) returns (r: FileListSearchParams)
      requires Valid()
      modifies this`freeleech
      ensures Valid() && r == this
      ensures freeleech == Some(if b then 1 else 0)
    {
      freeleech := Some(if b then 1 else 0);
      return this;
    }

    method DoubleUp(b: bool) returns (r: FileListSearchParams)
      requires Valid()
      modifies this`doubleup
      ensures Valid() && r == this
      ensures doubleup == Some(if b then 1 else 0)
    {
      doubleup := Some(if b then 1 else 0);
      return this;
    }

    /** Any int is taken as the season, without a range check. */
    method Season(n: Int32) returns (r: FileListSearchParams)
      requires Valid()
      modifies this`season
      ensures Valid() && r == this
      ensures season == Some(n)
    {
      season := Some(n);
      return this;
    }

    /** Any int is taken as the episode, without a range check. */
    method Episode(n: Int32) returns (r: FileListSearchParams)
      requires Valid()
      modifies this`episode
      ensures Valid() && r == this
      ensures episode == Some(n)
    {
      episode := Some(n);
      return this;
    }
  }

  // ---------------------------------------------------------------------------
  // Properties of the serialised form

  /** The output is the head followed by each field's "&key=value" (or nothing), in the fixed order. */
  lemma RenderedInOrder(s: SearchState, head: string)
    ensures head + Render(OptionalParams(s))
         == head + Render(Emit(s, Category)) + Render(Emit(s, Moderated)) + Render(Emit(s, Internal))
            + Render(Emit(s, FreeLeech)) + Render(Emit(s, DoubleUp)) + Render(Emit(s, Season))
            + Render(Emit(s, Episode))
  {
    var e1, e2, e3, e4 := Emit(s, Category), Emit(s, Moderated), Emit(s, Internal), Emit(s, FreeLeech);
    var e5, e6, e7 := Emit(s, DoubleUp), Emit(s, Season), Emit(s, Episode);
    AppendRendered(head, [], e1);
    AppendRendered(head, e1, e2);
    AppendRendered(head, e1 + e2, e3);
    AppendRendered(head, e1 + e2 + e3, e4);
    AppendRendered(head, e1 + e2 + e3 + e4, e5);
    AppendRendered(head, e1 + e2 + e3 + e4 + e5, e6);
    AppendRendered(head, e1 + e2 + e3 + e4 + e5 + e6, e7);
  }

  lemma AppendRendered(head: string, a: seq<Param>, b: seq<Param>)
    ensures head + Render(a + b) == head + Render(a) + Render(b)
  {
    RenderAppend(a, b);
  }

  /** Distinct optional fields are sent under distinct names, none of them "type" or "query". */
  lemma KeysDistinct(f: SearchField, g: SearchField)
    ensures Key(f) == Key(g) ==> f == g
    ensures Key(f) != "type" && Key(f) != "query"
    ensures '&' !in Key(f) && '=' !in Key(f)
  {
  }

  /** Every rendered field value is free of '&', so it cannot be mistaken for a separator. */
  lemma FieldValueHasNoAmpersand(s: SearchState, f: SearchField)
    ensures FieldValue(s, f).Some? ==> '&' !in FieldValue(s, f).value
  {
    if FieldValue(s, f).Some? {
      if f == Category {
        JoinIntsChars(s.category.value, '&');
      } else {
        var v := match f
          case Moderated => s.moderated.value
          case Internal => s.internal.value
          case FreeLeech => s.freeleech.value
          case DoubleUp => s.doubleup.value
          case Season => s.season.value
          case Episode => s.episode.value;
        FormatIntChars(v, '&');
      }
    }
  }

  lemma EmitUnambiguous(s: SearchState, f: SearchField)
    ensures AllUnambiguous(Emit(s, f))
  {
    KeysDistinct(f, f);
    FieldValueHasNoAmpersand(s, f);
    OptParamUnambiguous(Key(f), FieldValue(s, f));
  }

  lemma OptionalParamsUnambiguous(s: SearchState)
    ensures AllUnambiguous(OptionalParams(s))
  {
    EmitUnambiguous(s, Category);
    EmitUnambiguous(s, Moderated);
    EmitUnambiguous(s, Internal);
    EmitUnambiguous(s, FreeLeech);
    EmitUnambiguous(s, DoubleUp);
    EmitUnambiguous(s, Season);
    EmitUnambiguous(s, Episode);
  }

  /** How often, and with what value, field f's name occurs among the parameters g contributes. */
  lemma EmitCountLookup(s: SearchState, g: SearchField, key: string)
    ensures Count(Emit(s, g), key) == (if key == Key(g) && FieldValue(s, g).Some? then 1 else 0)
    ensures Lookup(Emit(s, g), key) == (if key == Key(g) then FieldValue(s, g) else None)
  {
  }

  /**
   * In the optional part, each field's name occurs once when the field is set
   * and not at all otherwise, carrying the field's text; "type" and "query" never occur.
   */
  lemma OptionalParamsCountLookup(s: SearchState, f: SearchField)
    ensures Count(OptionalParams(s), Key(f)) == (if FieldValue(s, f).Some? then 1 else 0)
    ensures Lookup(OptionalParams(s), Key(f)) == FieldValue(s, f)
    ensures Count(OptionalParams(s), "type") == 0 && Count(OptionalParams(s), "query") == 0
  {
    CountOptional(s, Key(f));
    CountOptional(s, "type");
    CountOptional(s, "query");
    KeyOnlyIn(s, Category, f);
    KeyOnlyIn(s, Moderated, f);
    KeyOnlyIn(s, Internal, f);
    KeyOnlyIn(s, FreeLeech, f);
    KeyOnlyIn(s, DoubleUp, f);
    KeyOnlyIn(s, Season, f);
    KeyOnlyIn(s, Episode, f);
    LookupOptional(s, f);
  }

  /** The position of a field in the output order. */
  function Position(f: SearchField): nat
  {
    match f
    case Category => 0
    case Moderated => 1
    case Internal => 2
    case FreeLeech => 3
    case DoubleUp => 4
    case Season => 5
    case Episode => 6
  }

  /** Looking field f up in the fields up to position n finds it exactly when f comes at or before n. */
  lemma LookupStep(s: SearchState, f: SearchField, before: seq<Param>, g: SearchField)
    requires Lookup(before, Key(f)) == (if Position(f) < Position(g) then FieldValue(s, f) else None)
    ensures Lookup(before + Emit(s, g), Key(f)) == (if Position(f) <= Position(g) then FieldValue(s, f) else None)
  {
    LookupAppend(before, Emit(s, g), Key(f));
    KeyOnlyIn(s, g, f);
    if Position(f) < Position(g) {
      assert f != g;
    } else if Position(f) == Position(g) {
      assert f == g;
    } else {
      assert f != g;
    }
  }

  lemma LookupOptional(s: SearchState, f: SearchField)
    ensures Lookup(OptionalParams(s), Key(f)) == FieldValue(s, f)
  {
    var e1, e2, e3, e4 := Emit(s, Category), Emit(s, Moderated), Emit(s, Internal), Emit(s, FreeLeech);
    var e5, e6, e7 := Emit(s, DoubleUp), Emit(s, Season), Emit(s, Episode);
    LookupStep(s, f, [], Category);
    assert [] + e1 == e1;
    LookupStep(s, f, e1, Moderated);
    LookupStep(s, f, e1 + e2, Internal);
    LookupStep(s, f, e1 + e2 + e3, FreeLeech);
    LookupStep(s, f, e1 + e2 + e3 + e4, DoubleUp);
    LookupStep(s, f, e1 + e2 + e3 + e4 + e5, Season);
    LookupStep(s, f, e1 + e2 + e3 + e4 + e5 + e6, Episode);
  }

  /** Field g contributes field f's name only if g is f, and never "type" or "query". */
  lemma KeyOnlyIn(s: SearchState, g: SearchField, f: SearchField)
    ensures Count(Emit(s, g), Key(f)) == (if g == f && FieldValue(s, f).Some? then 1 else 0)
    ensures Lookup(Emit(s, g), Key(f)) == (if g == f then FieldValue(s, f) else None)
    ensures Count(Emit(s, g), "type") == 0 && Count(Emit(s, g), "query") == 0
  {
    KeysDistinct(g, f);
    EmitCountLookup(s, g, Key(f));
    EmitCountLookup(s, g, "type");
    EmitCountLookup(s, g, "query");
  }

  lemma CountOptional(s: SearchState, key: string)
    ensures Count(OptionalParams(s), key)
         == Count(Emit(s, Category), key) + Count(Emit(s, Moderated), key) + Count(Emit(s, Internal), key)
            + Count(Emit(s, FreeLeech), key) + Count(Emit(s, DoubleUp), key) + Count(Emit(s, Season), key)
            + Count(Emit(s, Episode), key)
  {
    var e1, e2, e3, e4 := Emit(s, Category), Emit(s, Moderated), Emit(s, Internal), Emit(s, FreeLeech);
    var e5, e6, e7 := Emit(s, DoubleUp), Emit(s, Season), Emit(s, Episode);
    CountAppend(e1, e2, key);
    CountAppend(e1 + e2, e3, key);
    CountAppend(e1 + e2 + e3, e4, key);
    CountAppend(e1 + e2 + e3 + e4, e5, key);
    CountAppend(e1 + e2 + e3 + e4 + e5, e6, key);
    CountAppend(e1 + e2 + e3 + e4 + e5 + e6, e7, key);
  }

  /** The parameters a builder in state s sends: type, query, then the optional ones. */
  function AllParams(s: SearchState): seq<Param>
    requires s.query.Some?
  {
    [Param("type", s.searchType), Param("query", s.query.value)] + OptionalParams(s)
  }

  /**
   * As long as neither the type nor the query holds an '&', reading the
   * serialised string back yields exactly the type, the query and the set
   * optional fields, in the output order.
   */
  lemma SerializeReadsBack(s: SearchState)
    requires s.query.Some? && '&' !in s.query.value && '&' !in s.searchType
    ensures Serialize(s).Success? && Parse(Serialize(s).value) == AllParams(s)
  {
    SerializedShape(s);
    OptionalParamsUnambiguous(s);
    HeadKeysPlain();
    ParseLeadingTwo("type", s.searchType, "query", s.query.value, OptionalParams(s));
  }

  /** The serialised string is the "type" piece followed by the rendered query and optional parameters. */
  lemma SerializedShape(s: SearchState)
    requires s.query.Some?
    ensures Serialize(s).Success?
    ensures Serialize(s).value
      == "type" + "=" + s.searchType + Render([Param("query", s.query.value)] + OptionalParams(s))
  {
    HeadShape(s.searchType, s.query.value, OptionalParams(s));
  }

  lemma HeadShape(t: string, q: string, opt: seq<Param>)
    ensures "type=" + t + "&query=" + q + Render(opt) == "type" + "=" + t + Render([Param("query", q)] + opt)
  {
    RenderCons(Param("query", q), opt);
  }

  /**
   * What a receiver reads: "type" and "query" once each, and every optional
   * field once with its text when set and not at all when unset; the
   * category text reads back as the stored ids.
   */
  lemma SerializedFieldsOnce(s: SearchState, f: SearchField)
    requires s.query.Some? && '&' !in s.query.value && '&' !in s.searchType
    ensures Serialize(s).Success?
    ensures var ps := Parse(Serialize(s).value);
      && Count(ps, "type") == 1 && Lookup(ps, "type") == Some(s.searchType)
      && Count(ps, "query") == 1 && Lookup(ps, "query") == s.query
      && Count(ps, Key(f)) == (if FieldValue(s, f).Some? then 1 else 0)
      && Lookup(ps, Key(f)) == FieldValue(s, f)
    ensures s.category.Some? ==> ParseIntList(FieldValue(s, Category).value) == Some(s.category.value)
  {
    SerializeReadsBack(s);
    var head := [Param("type", s.searchType), Param("query", s.query.value)];
    var opt := OptionalParams(s);
    OptionalParamsCountLookup(s, f);
    KeysDistinct(f, f);
    CountAppend(head, opt, "type");
    CountAppend(head, opt, "query");
    CountAppend(head, opt, Key(f));
    LookupAppend(head, opt, "type");
    LookupAppend(head, opt, "query");
    LookupAppend(head, opt, Key(f));
    if s.category.Some? {
      JoinIntsRoundTrip(s.category.value);
    }
  }

  /**
   * A well-formed builder whose query holds no '&' sends exactly one
   * category parameter, reading back as the stored ids (none for a new
   * builder), and a type the builder accepts.
   */
  lemma WellFormedSendsCategory(s: SearchState)
    requires WellFormed(s) && s.query.Some? && '&' !in s.query.value
    ensures Serialize(s).Success?
    ensures var ps := Parse(Serialize(s).value);
      && Count(ps, "category") == 1
      && Lookup(ps, "category").Some?
      && ParseIntList(Lookup(ps, "category").value) == Some(s.category.value)
      && Lookup(ps, "type").Some? && IsSearchType(Lookup(ps, "type").value)
  {
    TypesPlain(s.searchType);
    SerializedFieldsOnce(s, Category);
    var ps := Parse(Serialize(s).value);
    assert Key(Category) == "category";
    assert FieldValue(s, Category).Some?;
    assert Lookup(ps, "type") == Some(s.searchType);
  }

  /** On a well-formed builder whose query holds no '&', every flag the receiver reads is "0" or "1". */
  lemma WellFormedFlags(s: SearchState, f: SearchField)
    requires WellFormed(s) && s.query.Some? && '&' !in s.query.value
    requires f in {Moderated, Internal, FreeLeech, DoubleUp}
    ensures Serialize(s).Success?
    ensures var v := Lookup(Parse(Serialize(s).value), Key(f));
      v.Some? ==> v.value == "0" || v.value == "1"
  {
    TypesPlain(s.searchType);
    SerializedFieldsOnce(s, f);
    assert FormatNat(0) == "0" && FormatNat(1) == "1";
  }

  /**
   * A new builder given only a query (and perhaps a type) serialises to
   * "type=<t>&query=<q>&category=": the category array starts out empty
   * rather than null, so its parameter is always sent, with an empty value.
   */
  lemma FreshWithQuery(t: string, q: string)
    ensures Serialize(Fresh.(searchType := t, query := Some(q))) == Success("type=" + t + "&query=" + q + "&category=")
  {
    var s := Fresh.(searchType := t, query := Some(q));
    FreshOptionalParams(t, q);
    EmptyCategoryText();
    assert Serialize(s).value == "type=" + t + "&query=" + q + Render([Param("category", "")]);
  }

  /** Of a new builder's optional fields only the (empty) category is set. */
  lemma FreshOptionalParams(t: string, q: string)
    ensures OptionalParams(Fresh.(searchType := t, query := Some(q))) == [Param("category", "")]
  {
    var s := Fresh.(searchType := t, query := Some(q));
    assert JoinInts([]) == "";
    assert Emit(s, Category) == [Param("category", "")];
  }

  /**
   * The example of the library's documentation: name search, category 21,
   * freeleech on, gives "type=name&query=<q>&category=21&freeleech=1".
   */
  lemma DocumentedState(q: string)
    ensures Serialize(Fresh.(query := Some(q), category := Some([21]), freeleech := Some(1)))
         == Success("type=name&query=" + q + "&category=21&freeleech=1")
  {
    var s := Fresh.(query := Some(q), category := Some([21]), freeleech := Some(1));
    DocumentedParams(s);
    DocumentedText();
    NameHead(q);
  }

  lemma DocumentedParams(s: SearchState)
    requires s == Fresh.(query := s.query, category := Some([21]), freeleech := Some(1))
    ensures OptionalParams(s) == [Param("category", "21"), Param("freeleech", "1")]
  {
    assert FormatNat(2) == "2";
    assert FormatNat(21) == FormatNat(2) + ['1'];
    assert FormatInt(21) == "21";
    assert JoinInts([21]) == "21";
    assert FormatInt(1) == "1";
    assert Emit(s, Category) == [Param("category", "21")];
    assert Emit(s, FreeLeech) == [Param("freeleech", "1")];
  }

  /**
   * The query is sent without encoding, so an '&' in it smuggles in a
   * parameter: the receiver reads the query only up to the '&', and then a
   * parameter the builder never set, ahead of the optional fields.
   */
  lemma UnencodedQuerySmuggles(s: SearchState, q: string, k: string, v: string)
    requires s.query == Some(q + "&" + k + "=" + v)
    requires '&' !in s.searchType && '&' !in q && Unambiguous(Param(k, v))
    ensures Serialize(s).Success?
    ensures Parse(Serialize(s).value)
         == [Param("type", s.searchType), Param("query", q), Param(k, v)] + OptionalParams(s)
  {
    var opt := OptionalParams(s);
    SmuggledShape(s, q, k, v);
    OptionalParamsUnambiguous(s);
    AllUnambiguousCons(Param(k, v), opt);
    HeadKeysPlain();
    ParseLeadingTwo("type", s.searchType, "query", q, [Param(k, v)] + opt);
  }

  lemma SmuggledShape(s: SearchState, q: string, k: string, v: string)
    requires s.query == Some(q + "&" + k + "=" + v)
    ensures Serialize(s).Success?
    ensures Serialize(s).value
         == "type" + "=" + s.searchType + Render([Param("query", q)] + ([Param(k, v)] + OptionalParams(s)))
  {
    SmuggledQueryText(s.searchType, q, k, v, OptionalParams(s));
  }

  lemma SmuggledQueryText(t: string, q: string, k: string, v: string, opt: seq<Param>)
    ensures "type=" + t + "&query=" + (q + "&" + k + "=" + v) + Render(opt)
         == "type" + "=" + t + Render([Param("query", q)] + ([Param(k, v)] + opt))
  {
    RenderCons(Param(k, v), opt);
    RenderCons(Param("query", q), [Param(k, v)] + opt);
  }

  /** For instance, a query "x&season=2" makes the receiver read a season that was never set. */
  lemma UnencodedQueryAddsSeason()
    ensures var s := Fresh.(query := Some("x&season=2"));
      && s.season == None
      && Serialize(s).Success?
      && Lookup(Parse(Serialize(s).value), "season") == Some("2")
      && Lookup(Parse(Serialize(s).value), "query") == Some("x")
  {
    var s := Fresh.(query := Some("x&season=2"));
    assert "x" + "&" + "season" + "=" + "2" == "x&season=2";
    UnencodedQuerySmuggles(s, "x", "season", "2");
    var front := [Param("type", "name"), Param("query", "x"), Param("season", "2")];
    var ps := Parse(Serialize(s).value);
    assert ps == front + OptionalParams(s);
    SmuggledLookups(front);
    LookupAppend(front, OptionalParams(s), "season");
    LookupAppend(front, OptionalParams(s), "query");
  }

  lemma SmuggledLookups(front: seq<Param>)
    requires front == [Param("type", "name"), Param("query", "x"), Param("season", "2")]
    ensures Lookup(front, "season") == Some("2") && Lookup(front, "query") == Some("x")
  {
    assert "type"[0] != "season"[0] && "query"[0] != "season"[0] && "type"[0] != "query"[0];
    var rest := [Param("query", "x"), Param("season", "2")];
    assert front[1..] == rest;
    assert rest[1..] == [Param("season", "2")];
    assert Lookup(rest[1..], "season") == Some("2");
    assert Lookup(rest, "season") == Some("2");
    assert Lookup(rest, "query") == Some("x");
  }

  // ---------------------------------------------------------------------------
  // Facts about literal text, kept apart so the proofs above stay cheap

  lemma ImdbHead(q: string)
    ensures "type=" + "imdb" + "&query=" + q == "type=imdb&query=" + q
  {
    assert "type=" + "imdb" + "&query=" == "type=imdb&query=";
  }

  lemma UpperImdb()
    ensures ToLower("IMDB") == "imdb"
  {
    assert forall k :: 0 <= k < 4 ==> LowerChar("IMDB"[k]) == "imdb"[k];
  }

  lemma NameHead(q: string)
    ensures "type=" + "name" + "&query=" + q == "type=name&query=" + q
  {
    assert "type=" + "name" + "&query=" == "type=name&query=";
  }

  lemma DocumentedText()
    ensures Render([Param("category", "21"), Param("freeleech", "1")]) == "&category=21&freeleech=1"
  {
    var ps := [Param("category", "21"), Param("freeleech", "1")];
    RenderCons(ps[0], ps[1..]);
    assert ps[1..] == [ps[1]];
    RenderOne(ps[1]);
  }

  lemma EmptyCategoryText()
    ensures Render([Param("category", "")]) == "&category="
  {
    RenderOne(Param("category", ""));
  }

  /** The two mandatory parameter names hold neither '&' nor '='. */
  lemma HeadKeysPlain()
    ensures '&' !in "type" && '=' !in "type" && '&' !in "query" && '=' !in "query"
  {
  }

  lemma TypesPlain(t: string)
    requires IsSearchType(t)
    ensures '&' !in t
  {
  }

  // ---------------------------------------------------------------------------
  // Builders used as the library's callers use them

  /** A new builder given a query: sent with type "name" and an empty category. */
  method QueryOnly(q: string) returns (r: Result<string, Exception>)
    ensures r == Success("type=name&query=" + q + "&category=")
  {
    var p := new FileListSearchParams();
    var _ := p.Query(q);
    assert p.State() == Fresh.(searchType := "name", query := Some(q));
    r := p.ToString();
    FreshWithQuery("name", q);
    NameHead(q);
  }

  /**
   * The query is checked against the IMDb pattern only when it is set: switching
   * the type to imdb afterwards keeps a query the pattern would have refused.
   */
  method TypeSetAfterQuery(q: string) returns (r: Result<string, Exception>)
    ensures r == Success("type=imdb&query=" + q + "&category=")
  {
    var p := new FileListSearchParams();
    var _ := p.Query(q);
    UpperImdb();
    var _ := p.Type("IMDB");
    assert p.State() == Fresh.(searchType := "imdb", query := Some(q));
    r := p.ToString();
    FreshWithQuery("imdb", q);
    ImdbHead(q);
  }

  /** In imdb mode a query without "tt" is refused and leaves the query unset. */
  method ImdbQueryRefused(q: string) returns (r: Result<FileListSearchParams, Exception>, s: Result<string, Exception>)
    requires !ImdbRegexIsMatch(q)
    ensures r == Failure(ArgumentException(ImdbQueryMessage))
    ensures s == Failure(ArgumentNullException("Query", MissingQueryMessage))
  {
    var p := new FileListSearchParams();
    var _ := p.Type("imdb");
    r := p.Query(q);
    s := p.ToString();
  }

  /** The documented search: name "q", category 21, freeleech. */
  method DocumentedSearch(q: string) returns (r: Result<string, Exception>)
    ensures r == Success("type=name&query=" + q + "&category=21&freeleech=1")
  {
    var p := new FileListSearchParams();
    var _ := p.Query(q);
    var categories := new Int32[1];
    categories[0] := 21;
    assert categories[..] == [21];
    var _ := p.Categories(categories);
    var _ := p.FreeLeech(true);
    assert p.State() == Fresh.(query := Some(q), category := Some([21]), freeleech := Some(1));
    r := p.ToString();
    DocumentedState(q);
  }

  /** Without a query, ToString throws, however the other fields were set. */
  method MissingQuery(t: string, b: bool, n: Int32) returns (r: Result<string, Exception>)
    ensures r == Failure(ArgumentNullException("Query", MissingQueryMessage))
  {
    var p := new FileListSearchParams();
    var _ := p.Type(t);
    var _ := p.Moderated(b);
    var _ := p.Internal(b);
    var _ := p.FreeLeech(b);
    var _ := p.DoubleUp(b);
    var _ := p.Season(n);
    var _ := p.Episode(n);
    r := p.ToString();
  }
}
