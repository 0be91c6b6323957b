/** `MalWrapper::API::Anime` and `MalWrapper::API::Manga`: two façades that differ only in the `type`
    they send, modelled as one client parameterised by the resource kind. Each operation builds a
    fixed parameter Hash, sends it through `build_query` and `parse`, and unwraps `data[].node`. */
module Resources {
  import opened Text
  import opened Outcomes
  import opened Response
  import opened QueryBuilder

  datatype Kind = Anime | Manga {

    /** The `type` every request of the façade carries. */
    function Name(): string
    {
      match this
      case Anime => "anime"
      case Manga => "manga"
    }
  }

  /** `Anime.new(base_url)` is `Client(Anime, Api(base_url))`; `Manga.new(base_url)` is `Client(Manga, Api(base_url))`. */
  datatype Client = Client(kind: Kind, api: Api) {

    /** The Hash `id` builds: query, type, limit, in that order. */
    function IdParams(name: string): Hash
    {
      [("query", VStr(name)), ("type", VStr(kind.Name())), ("limit", VInt(1))]
    }

    /** `id(name)`: `data.first["node"]["id"]` of the response. */
    function Id(name: string, fetch: string -> Json): Result<Json>
    {
      var suffix :- api.Build(IdParams(name));
      IdOf(api.Parse(suffix, fetch))
    }

    /** The Hash `find` builds: query, type, limit, offset, fields, in that order. */
    function FindParams(query: string, limit: int, offset: int, fields: seq<string>): Hash
    {
      [("query", VStr(query)), ("type", VStr(kind.Name())), ("limit", VInt(limit)),
       ("offset", VInt(offset)), ("fields", VList(fields))]
    }

    /** `find(query, limit: 100, offset: 0, fields: [])`: the `node` of every element of `data`. */
    function Find(query: string, fetch: string -> Json, limit: int := 100, offset: int := 0,
                  fields: seq<string> := []): Result<seq<Json>>
    {
      var suffix :- api.Build(FindParams(query, limit, offset, fields));
      var data :- Index(api.Parse(suffix, fetch), "data");
      MapIndex(data, "node")
    }

    /** `alias search find` */
    function Search(query: string, fetch: string -> Json, limit: int := 100, offset: int := 0,
                    fields: seq<string> := []): Result<seq<Json>>
    {
      Find(query, fetch, limit, offset, fields)
    }

    /** `first(query, fields: [])`: indexes the Array that `find` returns with `"data"`. */
    function First(query: string, fetch: string -> Json, fields: seq<string> := []): Result<Json>
    {
      var found :- Find(query, fetch, limit := 1, fields := fields);
      var data :- Index(JArr(found), "data");
      var first :- Response.First(data);
      Index(first, "node")
    }

    /** What `first` evidently means, `find(query, limit: 1, fields: fields).first`: the first record
        `find` returns, nil when there is none. */
    function FirstRecord(query: string, fetch: string -> Json, fields: seq<string> := []): Result<Json>
    {
      var found :- Find(query, fetch, limit := 1, fields := fields);
      Response.First(JArr(found))
    }

    /** The Hash `ranking` builds: that of `find`, followed by `separator: "?"`. */
    function RankingParams(rankingType: string, limit: int, offset: int, fields: seq<string>): Hash
    {
      [("query", VStr(rankingType)), ("type", VStr(kind.Name())), ("limit", VInt(limit)),
       ("offset", VInt(offset)), ("fields", VList(fields)), ("separator", VStr("?"))]
    }

    /** `ranking(ranking_type, limit: 100, offset: 0, fields: [])` */
    function Ranking(rankingType: string, fetch: string -> Json, limit: int := 100, offset: int := 0,
                     fields: seq<string> := []): Result<seq<Json>>
    {
      var suffix :- api.Build(RankingParams(rankingType, limit, offset, fields));
      var data :- Index(api.Parse(suffix, fetch), "data");
      MapIndex(data, "node")
    }

    /** The suffix `id` requests: the search shape with `limit=1` for a name without a digit; a name
        with a digit selects the direct shape, which raises for want of `fields`. */
    lemma IdRequest(name: string)
      ensures api.Build(IdParams(name))
              == if ContainsDigit(name) then Failure(NoMethodError("join", NilClass))
                 else Success(api.Prefix() + kind.Name() + "?q=" + name + "&limit=1")
    {
      var params := IdParams(name);
      LookupAt(params, 0);
      LookupAt(params, 1);
      if ContainsDigit(name) {
        LookupAbsent(params, "fields");
        api.DirectShape(params, name);
      } else {
        api.SearchShape(params, name);
        IdArgs(name);
        var head := api.Prefix() + kind.Name() + "?q=" + name;
        assert head + "&" + Join(["limit=1"], "&") == head + "&limit=1";
      }
    }

    /** The Hash of `id` passes the filter whole and yields the single argument `limit=1`. */
    lemma IdArgs(name: string)
      ensures Authorized(IdParams(name)) == IdParams(name)
      ensures ArgsOf(IdParams(name)) == Success(["limit=1"])
    {
      var params := IdParams(name);
      RequiredAreAuthorized();
      assert IsAuthorized("limit") by {
        assert AuthorizedKeys[2] == "limit";
      }
      AllAuthorized(params);
      KeyNamesDistinct();
      var le: Hash := [("limit", VInt(1))];
      assert ArgOf("limit", VInt(1)) == Success(["limit=1"]) by {
        ArgOfEntry("limit", VInt(1));
        assert NatToString(1) == "1";
        assert IntToString(1) == "1";
        assert "limit" + "=" + "1" == "limit=1";
      }
      ArgsOfCons("limit", VInt(1), []);
      assert le + [] == le;
      assert ArgsOf(le).value == ["limit=1"];
      ArgOfEntry("type", VStr(kind.Name()));
      ArgsOfCons("type", VStr(kind.Name()), le);
      var te: Hash := [("type", VStr(kind.Name()))] + le;
      assert ArgsOf(te).value == ["limit=1"];
      ArgOfEntry("query", VStr(name));
      ArgsOfCons("query", VStr(name), te);
      assert params == [("query", VStr(name))] + te;
    }

    /** `id` fails before any request for a name with a digit, and otherwise reads the answer to its
        search request. */
    lemma IdResult(name: string, fetch: string -> Json)
      ensures ContainsDigit(name) ==> Id(name, fetch) == Failure(NoMethodError("join", NilClass))
      ensures !ContainsDigit(name) ==>
                Id(name, fetch) == IdOf(api.Parse(api.Prefix() + kind.Name() + "?q=" + name + "&limit=1", fetch))
    {
      if ContainsDigit(name) {
        assert api.Build(IdParams(name)) == Failure(NoMethodError("join", NilClass)) by {
          IdRequest(name);
        }
      } else {
        var suffix := api.Prefix() + kind.Name() + "?q=" + name + "&limit=1";
        assert api.Build(IdParams(name)) == Success(suffix) by {
          IdRequest(name);
        }
      }
    }

    /** The suffix `find` requests: type, query and the fields in the direct shape when the query has a
        digit; otherwise the search shape with limit, offset and fields in that order. */
    lemma FindRequest(query: string, limit: int, offset: int, fields: seq<string>)
      ensures api.Build(FindParams(query, limit, offset, fields))
              == if ContainsDigit(query)
                 then Success(api.Prefix() + kind.Name() + "/" + query + "?fields=" + Join(fields, ","))
                 else Success(api.Prefix() + kind.Name() + "?q=" + query + "&limit=" + IntToString(limit)
                              + "&offset=" + IntToString(offset) + "&fields=" + Join(fields, ","))
    {
      if ContainsDigit(query) {
        FindDirect(query, limit, offset, fields);
      } else {
        FindSearch(query, limit, offset, fields);
      }
    }

    lemma FindDirect(query: string, limit: int, offset: int, fields: seq<string>)
      requires ContainsDigit(query)
      ensures api.Build(FindParams(query, limit, offset, fields))
              == Success(api.Prefix() + kind.Name() + "/" + query + "?fields=" + Join(fields, ","))
    {
      var params := FindParams(query, limit, offset, fields);
      LookupAt(params, 0);
      LookupAt(params, 1);
      LookupAt(params, 4);
      api.DirectShape(params, query);
    }

    lemma FindSearch(query: string, limit: int, offset: int, fields: seq<string>)
      requires !ContainsDigit(query)
      ensures api.Build(FindParams(query, limit, offset, fields))
              == Success(api.Prefix() + kind.Name() + "?q=" + query + "&limit=" + IntToString(limit)
                         + "&offset=" + IntToString(offset) + "&fields=" + Join(fields, ","))
    {
      var params := FindParams(query, limit, offset, fields);
      LookupAt(params, 0);
      LookupAt(params, 1);
      api.SearchShape(params, query);
      FindArgs(query, limit, offset, fields);
      var l, o, f := "limit=" + IntToString(limit), "offset=" + IntToString(offset), "fields=" + Join(fields, ",");
      assert Lookup(params, "type").value == VStr(kind.Name());
      assert ArgsOf(Authorized(params)).value == [l, o, f];
      JoinThree(l, o, f, "&");
      SearchTail(api.Prefix() + kind.Name() + "?q=" + query, IntToString(limit), IntToString(offset), Join(fields, ","));
    }

    /** The Hash of `find` passes the filter whole and yields the arguments limit, offset, fields. */
    lemma FindArgs(query: string, limit: int, offset: int, fields: seq<string>)
      ensures Authorized(FindParams(query, limit, offset, fields)) == FindParams(query, limit, offset, fields)
      ensures ArgsOf(FindParams(query, limit, offset, fields))
              == Success(["limit=" + IntToString(limit), "offset=" + IntToString(offset), "fields=" + Join(fields, ",")])
    {
      var params := FindParams(query, limit, offset, fields);
      RequiredAreAuthorized();
      assert IsAuthorized("limit") && IsAuthorized("offset") && IsAuthorized("fields") by {
        assert AuthorizedKeys[2] == "limit" && AuthorizedKeys[3] == "offset" && AuthorizedKeys[4] == "fields";
      }
      AllAuthorized(params);
      KeyNamesDistinct();
      var l, o, f := "limit=" + IntToString(limit), "offset=" + IntToString(offset), "fields=" + Join(fields, ",");
      var fe: Hash := [("fields", VList(fields))];
      assert "fields" + "=" == "fields=" && "offset" + "=" == "offset=" && "limit" + "=" == "limit=";
      assert ArgOf("fields", VList(fields)).value == [f];
      ArgsOfCons("fields", VList(fields), []);
      assert fe + [] == fe;
      assert ArgsOf(fe).value == [f];
      ArgOfEntry("offset", VInt(offset));
      ArgsOfCons("offset", VInt(offset), fe);
      var oe: Hash := [("offset", VInt(offset))] + fe;
      assert ArgsOf(oe).value == [o, f];
      ArgOfEntry("limit", VInt(limit));
      ArgsOfCons("limit", VInt(limit), oe);
      var le: Hash := [("limit", VInt(limit))] + oe;
      assert ArgsOf(le).value == [l, o, f];
      ArgOfEntry("type", VStr(kind.Name()));
      ArgsOfCons("type", VStr(kind.Name()), le);
      var te: Hash := [("type", VStr(kind.Name()))] + le;
      assert ArgsOf(te).value == [l, o, f];
      ArgOfEntry("query", VStr(query));
      ArgsOfCons("query", VStr(query), te);
      assert params == [("query", VStr(query))] + te;
    }

    /** `find` returns the `node` of every element of `data`, in order, and an empty list for an empty
        `data`; a response without `data` makes it call `map` on nil. */
    lemma FindNodes(query: string, fetch: string -> Json, limit: int, offset: int, fields: seq<string>)
      ensures api.Build(FindParams(query, limit, offset, fields)).Success? ==>
              var response := fetch(api.baseUrl + api.Build(FindParams(query, limit, offset, fields)).value);
              var found := Find(query, fetch, limit, offset, fields);
              && (Index(response, "data") == Success(JNull) ==> found == Failure(NoMethodError("map", NilClass)))
              && forall items :: Index(response, "data") == Success(JArr(items)) ==>
                   && (items == [] ==> found == Success([]))
                   && (found.Success? <==> forall i :: 0 <= i < |items| ==> Index(items[i], "node").Success?)
                   && (found.Success? ==>
                         && |found.value| == |items|
                         && forall i :: 0 <= i < |items| ==> Index(items[i], "node") == Success(found.value[i]))
    {
    }

    /** `first` never returns: `find` either raises or returns an Array, and an Array indexed with
        `"data"` raises `TypeError`. */
    lemma FirstNeverReturns(query: string, fetch: string -> Json, fields: seq<string>)
      ensures First(query, fetch, fields).Failure?
      ensures Find(query, fetch, 1, 0, fields).Success?
              ==> First(query, fetch, fields) == Failure(TypeError(NoImplicitConversion))
      ensures Find(query, fetch, 1, 0, fields).Failure?
              ==> First(query, fetch, fields) == Find(query, fetch, 1, 0, fields).PropagateFailure()
    {
    }

    /** The intended `first` returns the `node` of the first element of `data`, nil for an empty `data`,
        and fails exactly when `find` does. */
    lemma FirstRecordIsFirstNode(query: string, fetch: string -> Json, fields: seq<string>)
      ensures FirstRecord(query, fetch, fields).Success? <==> Find(query, fetch, 1, 0, fields).Success?
      ensures api.Build(FindParams(query, 1, 0, fields)).Success? ==>
              var response := fetch(api.baseUrl + api.Build(FindParams(query, 1, 0, fields)).value);
              forall items :: Index(response, "data") == Success(JArr(items)) ==>
                && (items == [] ==> FirstRecord(query, fetch, fields) == Success(JNull))
                && (FirstRecord(query, fetch, fields).Success? && items != [] ==>
                      Index(items[0], "node") == FirstRecord(query, fetch, fields))
    {
      FindNodes(query, fetch, 1, 0, fields);
    }

    /** `build_query` drops `separator`, so `ranking` requests the same suffix as `find` and returns the same
        records: the digit test alone picks the URL shape. */
    lemma RankingIsFind(rankingType: string, fetch: string -> Json, limit: int, offset: int, fields: seq<string>)
      ensures api.Build(RankingParams(rankingType, limit, offset, fields))
              == api.Build(FindParams(rankingType, limit, offset, fields))
      ensures Ranking(rankingType, fetch, limit, offset, fields) == Find(rankingType, fetch, limit, offset, fields)
    {
      RequiredAreAuthorized();
      var find := FindParams(rankingType, limit, offset, fields);
      assert RankingParams(rankingType, limit, offset, fields) == find + [("separator", VStr("?"))] + [];
      api.BuildIgnoresEntry(find, "separator", VStr("?"), []);
      assert find + [] == find;
    }

    /** A ranking type without a digit is requested in the search shape, with limit, offset and fields. */
    lemma RankingSearch(rankingType: string, limit: int, offset: int, fields: seq<string>)
      requires !ContainsDigit(rankingType)
      ensures api.Build(RankingParams(rankingType, limit, offset, fields))
              == Success(api.Prefix() + kind.Name() + "?q=" + rankingType + "&limit=" + IntToString(limit)
                         + "&offset=" + IntToString(offset) + "&fields=" + Join(fields, ","))
    {
      RankingIsFind(rankingType, (_ => JNull), limit, offset, fields);
      FindSearch(rankingType, limit, offset, fields);
    }

    /** Every request `find` and `ranking` build names the façade's own kind right after the slash. */
    lemma RequestsCarryKind(query: string, limit: int, offset: int, fields: seq<string>)
      ensures api.Build(FindParams(query, limit, offset, fields)).Success?
              && api.Prefix() + kind.Name() <= api.Build(FindParams(query, limit, offset, fields)).value
      ensures api.Build(RankingParams(query, limit, offset, fields)).Success?
              && api.Prefix() + kind.Name() <= api.Build(RankingParams(query, limit, offset, fields)).value
    {
      assert api.Build(RankingParams(query, limit, offset, fields)) == api.Build(FindParams(query, limit, offset, fields)) by {
        RankingIsFind(query, (_ => JNull), limit, offset, fields);
      }
      FindRequest(query, limit, offset, fields);
    }

    /** The request `id` builds, when it builds one, names the façade's own kind right after the slash. */
    lemma IdCarriesKind(name: string)
      ensures api.Build(IdParams(name)).Success? ==> api.Prefix() + kind.Name() <= api.Build(IdParams(name)).value
    {
      IdRequest(name);
    }
  }

  /** The search shape's tail, reassociated. A solver aid: it keeps the string algebra out of `FindSearch`. */
  lemma SearchTail(head: string, l: string, o: string, f: string)
    ensures head + "&" + ("limit=" + l + "&" + ("offset=" + o) + "&" + ("fields=" + f))
            == head + "&limit=" + l + "&offset=" + o + "&fields=" + f
  {
    assert "&" + "limit=" == "&limit=" && "&" + "offset=" == "&offset=" && "&" + "fields=" == "&fields=";
  }

  /** What `id` reads from a response: `["data"].first["node"]["id"]`. */
  function IdOf(response: Json): Result<Json>
  {
    var data :- Index(response, "data");
    var first :- Response.First(data);
    var node :- Index(first, "node");
    Index(node, "id")
  }

  /** On an empty `data` Array `id` calls `[]` on nil; otherwise it returns the `id` of the first
      element's `node`, and a `data` that is a Hash yields its first `[key, value]` pair, which cannot
      be indexed by a String. */
  lemma IdOfData(response: Json)
    ensures Index(response, "data") == Success(JArr([])) ==> IdOf(response) == Failure(NoMethodError("[]", NilClass))
    ensures Index(response, "data") == Success(JNull) ==> IdOf(response) == Failure(NoMethodError("first", NilClass))
    ensures forall x, xs :: Index(response, "data") == Success(JArr([x] + xs)) ==>
              IdOf(response) == (var node :- Index(x, "node"); Index(node, "id"))
    ensures forall fs :: Index(response, "data") == Success(JObj(fs)) && fs != [] ==>
              IdOf(response) == Failure(TypeError(NoImplicitConversion))
  {
    forall x, xs | Index(response, "data") == Success(JArr([x] + xs))
      ensures IdOf(response) == (var node :- Index(x, "node"); Index(node, "id"))
    {
      assert Response.First(JArr([x] + xs)) == Success(x);
    }
  }

  /** A Hash whose every key is authorized passes the filter untouched. */
  lemma {:induction false} AllAuthorized(h: Hash)
    requires forall i :: 0 <= i < |h| ==> IsAuthorized(h[i].0)
    ensures Authorized(h) == h
  {
    if h != [] {
      assert forall i :: 1 <= i < |h| ==> h[1..][i - 1] == h[i];
      AllAuthorized(h[1..]);
      assert [h[0]] + h[1..] == h;
    }
  }

  /** When no entry fails, the argument list is the concatenation of the entries' own arguments. */
  lemma {:induction false} ArgsOfEntries(h: Hash)
    requires forall i :: 0 <= i < |h| ==> ArgOf(h[i].0, h[i].1).Success?
    ensures ArgsOf(h).Success?
    ensures h != [] ==> ArgsOf(h).value == ArgOf(h[0].0, h[0].1).value + ArgsOf(h[1..]).value
  {
    if h != [] {
      assert forall i :: 1 <= i < |h| ==> h[1..][i - 1] == h[i];
      ArgsOfEntries(h[1..]);
    }
  }

  /** A free-text search: a query without a digit, on a base URL without a trailing slash. */
  lemma SearchScenario()
    ensures var anime := Client(Anime, Api("https://api.example/v2"));
            anime.api.Build(anime.FindParams("Naruto", 10, 0, ["title", "rank"]))
            == Success("/anime?q=Naruto&limit=10&offset=0&fields=title,rank")
  {
    var anime := Client(Anime, Api("https://api.example/v2"));
    assert anime.api.Prefix() == "/" by {
      var base := anime.api.baseUrl;
      assert base[|base| - 1] == '2';
    }
    assert !ContainsDigit("Naruto");
    assert IntToString(10) == "10" && IntToString(0) == "0" by {
      assert NatToString(1) == "1" && NatToString(10) == "10";
    }
    assert Join(["title", "rank"], ",") == "title,rank" by {
      assert ["title", "rank"][1..] == ["rank"];
    }
    anime.FindRequest("Naruto", 10, 0, ["title", "rank"]);
    NarutoSuffix();
  }

  /** A solver aid: the literal concatenation of `SearchScenario`, one step at a time to keep its proof cheap. */
  lemma NarutoSuffix()
    ensures "/" + "anime" + "?q=" + "Naruto" + "&limit=" + "10" + "&offset=" + "0" + "&fields=" + "title,rank"
            == "/anime?q=Naruto&limit=10&offset=0&fields=title,rank"
  {
    var s := "/" + "anime";
    assert s == "/anime";
    s := s + "?q=";
    assert s == "/anime?q=";
    s := s + "Naruto";
    assert s == "/anime?q=Naruto";
    s := s + "&limit=";
    assert s == "/anime?q=Naruto&limit=";
    s := s + "10";
    assert s == "/anime?q=Naruto&limit=10";
    s := s + "&offset=";
    assert s == "/anime?q=Naruto&limit=10&offset=";
    s := s + "0";
    assert s == "/anime?q=Naruto&limit=10&offset=0";
    s := s + "&fields=";
    assert s == "/anime?q=Naruto&limit=10&offset=0&fields=";
  }

  /** The ranking scenario on the manga façade: `"bypopularity"` has no digit, so the separator notwithstanding
      the request is a search. */
  lemma MangaRankingByPopularity(base: string)
    ensures var manga := Client(Manga, Api(base));
            manga.api.Build(manga.RankingParams("bypopularity", 5, 0, []))
            == Success(manga.api.Prefix() + "manga?q=bypopularity&limit=5&offset=0&fields=")
  {
    var manga := Client(Manga, Api(base));
    assert !ContainsDigit("bypopularity");
    manga.RankingSearch("bypopularity", 5, 0, []);
    assert IntToString(5) == "5" && IntToString(0) == "0" && Join([], ",") == "";
    ByPopularitySuffix(manga.api.Prefix());
  }

  /** A solver aid: the literal concatenation of `MangaRankingByPopularity`, one step at a time to keep its proof cheap. */
  lemma ByPopularitySuffix(head: string)
    ensures head + "manga" + "?q=" + "bypopularity" + "&limit=" + "5" + "&offset=" + "0" + "&fields=" + ""
            == head + "manga?q=bypopularity&limit=5&offset=0&fields="
  {
    var s := "manga" + "?q=";
    assert s == "manga?q=";
    s := s + "bypopularity";
    assert s == "manga?q=bypopularity";
    s := s + "&limit=";
    assert s == "manga?q=bypopularity&limit=";
    s := s + "5";
    assert s == "manga?q=bypopularity&limit=5";
    s := s + "&offset=";
    assert s == "manga?q=bypopularity&limit=5&offset=";
    s := s + "0";
    assert s == "manga?q=bypopularity&limit=5&offset=0";
    s := s + "&fields=";
    assert s == "manga?q=bypopularity&limit=5&offset=0&fields=";
    assert s + "" == s;
  }
}
