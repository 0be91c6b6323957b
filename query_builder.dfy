/** `MalWrapper::API::Base`: turns a parameter Hash into the path-and-query suffix that `parse`
    appends to the base URL, then hands the URL to the transport. */
module QueryBuilder {
  import opened Text
  import opened Outcomes
  import opened Response

  /** The values callers put in a parameter Hash. */
  datatype Value = VStr(s: string) | VInt(i: int) | VList(items: seq<string>)

  /** A parameter Hash: its entries in insertion order. A key is the name of the caller's Symbol. */
  type Hash = seq<(string, Value)>

  /** `authorized_keys`: the keys `select!` keeps. */
  const AuthorizedKeys: seq<string> := ["type", "query", "limit", "offset", "fields"]

  /** The keys without which `build_query` raises, in the order the message lists them. */
  const RequiredKeys: seq<string> := ["type", "query"]

  const MissingPrefix: string := "Missing required keys: "

  predicate IsAuthorized(k: string) {
    k in AuthorizedKeys
  }

  lemma RequiredAreAuthorized()
    ensures IsAuthorized("type") && IsAuthorized("query") && !IsAuthorized("separator")
  {
    assert AuthorizedKeys[0] == "type" && AuthorizedKeys[1] == "query";
  }

  /** `params.key?(k)` */
  predicate HasKey(h: Hash, k: string) {
    h != [] && (h[0].0 == k || HasKey(h[1..], k))
  }

  /** `params[k]`: the value of the (first) entry with key `k`, nil when there is none. */
  function Lookup(h: Hash, k: string): (r: Option<Value>)
    ensures r.Some? <==> HasKey(h, k)
  {
    if h == [] then None
    else if h[0].0 == k then Some(h[0].1)
    else Lookup(h[1..], k)
  }

  /** The first entry with a given key is the one `params[k]` reads. */
  lemma {:induction false} LookupAt(h: Hash, i: nat)
    requires i < |h| && forall j :: 0 <= j < i ==> h[j].0 != h[i].0
    ensures Lookup(h, h[i].0) == Some(h[i].1) && HasKey(h, h[i].0)
  {
    if i > 0 {
      assert forall j :: 0 <= j < i - 1 ==> h[1..][j] == h[j + 1];
      LookupAt(h[1..], i - 1);
    }
  }

  lemma {:induction false} LookupAbsent(h: Hash, k: string)
    requires forall j :: 0 <= j < |h| ==> h[j].0 != k
    ensures Lookup(h, k) == None && !HasKey(h, k)
  {
    if h != [] {
      assert forall j :: 0 <= j < |h| - 1 ==> h[1..][j] == h[j + 1];
      LookupAbsent(h[1..], k);
    }
  }

  /** `keys.select { |k| k unless params.key?(k) }`: the keys of `keys` that `h` lacks, in order. */
  function MissingOf(keys: seq<string>, h: Hash): (r: seq<string>)
    ensures |r| <= |keys|
  {
    if keys == [] then []
    else (if HasKey(h, keys[0]) then [] else [keys[0]]) + MissingOf(keys[1..], h)
  }

  /** The missing keys are exactly the listed keys the Hash lacks. */
  lemma {:induction false} MissingOfExactly(keys: seq<string>, h: Hash)
    ensures forall k :: k in MissingOf(keys, h) <==> k in keys && !HasKey(h, k)
  {
    if keys != [] {
      MissingOfExactly(keys[1..], h);
      assert forall k :: k in keys <==> k == keys[0] || k in keys[1..];
    }
  }

  /** The two required keys, checked one after the other. */
  lemma MissingRequired(h: Hash)
    ensures MissingOf(RequiredKeys, h)
            == (if HasKey(h, "type") then [] else ["type"]) + (if HasKey(h, "query") then [] else ["query"])
  {
    var tail := RequiredKeys[1..];
    assert RequiredKeys[0] == "type" && tail[0] == "query" && tail[1..] == [];
    assert MissingOf(tail[1..], h) == [];
    assert MissingOf(tail, h) == (if HasKey(h, "query") then [] else ["query"]) + [];
  }

  /** `params.select! { |key, _| authorized_keys.include?(key.to_sym) }`, as a value. */
  function Authorized(h: Hash): (r: Hash)
    ensures |r| <= |h|
    ensures forall i :: 0 <= i < |r| ==> IsAuthorized(r[i].0)
  {
    if h == [] then []
    else (if IsAuthorized(h[0].0) then [h[0]] else []) + Authorized(h[1..])
  }

  lemma {:induction false} AuthorizedAppend(a: Hash, b: Hash)
    ensures Authorized(a + b) == Authorized(a) + Authorized(b)
  {
    if a != [] {
      assert (a + b)[1..] == a[1..] + b;
      AuthorizedAppend(a[1..], b);
    } else {
      assert a + b == b;
    }
  }

  /** After the filter, an authorized key reads as before and every other key, `separator` included, reads nil. */
  lemma {:induction false} AuthorizedLookup(h: Hash, k: string)
    ensures Lookup(Authorized(h), k) == if IsAuthorized(k) then Lookup(h, k) else None
  {
    if h != [] {
      AuthorizedLookup(h[1..], k);
      var rest := Authorized(h[1..]);
      if IsAuthorized(h[0].0) {
        var kept := [h[0]] + rest;
        assert Authorized(h) == kept;
        assert kept[0] == h[0] && kept[1..] == rest;
        if h[0].0 == k {
          assert IsAuthorized(k);
          assert Lookup(kept, k) == Some(h[0].1) == Lookup(h, k);
        } else {
          assert Lookup(kept, k) == Lookup(rest, k);
          assert Lookup(h, k) == Lookup(h[1..], k);
        }
      } else {
        assert Authorized(h) == rest;
      }
    }
  }

  lemma {:induction false} AuthorizedIdempotent(h: Hash)
    ensures Authorized(Authorized(h)) == Authorized(h)
  {
    if h != [] {
      AuthorizedIdempotent(h[1..]);
      var rest := Authorized(h[1..]);
      if IsAuthorized(h[0].0) {
        assert ([h[0]] + rest)[1..] == rest;
      } else {
        assert Authorized(h) == rest;
      }
    }
  }

  /** String interpolation `"#{v}"`, that is `v.to_s`. */
  function Render(v: Value): string
  {
    match v
    case VStr(s) => s
    case VInt(i) => IntToString(i)
    case VList(items) => Inspect(items)
  }

  /** `v.join(",")` where `v` may be nil: only an Array answers `join`. */
  function JoinFields(v: Option<Value>): (r: Result<string>)
    ensures r.Success? <==> v.Some? && v.value.VList?
    ensures r.Success? ==> r.value == Join(v.value.items, ",")
    ensures v.None? ==> r == Failure(NoMethodError("join", NilClass))
  {
    match v
    case None => Failure(NoMethodError("join", NilClass))
    case Some(VStr(_)) => Failure(NoMethodError("join", StringClass))
    case Some(VInt(_)) => Failure(NoMethodError("join", IntegerClass))
    case Some(VList(items)) => Success(Join(items, ","))
  }

  /** The Hash keys the library uses are pairwise distinct. */
  lemma KeyNamesDistinct()
    ensures "query" != "type" && "query" != "limit" && "query" != "offset" && "query" != "fields"
    ensures "type" != "limit" && "type" != "offset" && "type" != "fields"
    ensures "limit" != "offset" && "limit" != "fields" && "offset" != "fields"
    ensures "separator" !in AuthorizedKeys
  {
    assert "query"[0] != "limit"[0];
    assert "query"[0] != "offset"[0];
    assert "limit"[0] != "offset"[0];
  }

  lemma ArgOfEntry(k: string, v: Value)
    requires k != "fields"
    ensures ArgOf(k, v) == if k == "type" || k == "query" then Success([]) else Success([k + "=" + Render(v)])
  {
    assert RequiredKeys == ["type", "query"];
  }

  /** The `fields` entries of `h` all hold an Array, so joining them cannot fail. */
  predicate FieldsJoinable(h: Hash) {
    forall i :: 0 <= i < |h| && h[i].0 == "fields" ==> h[i].1.VList?
  }

  /** The block of `params.map`: `k=v`, the `fields` Array joined by commas, nothing (nil) for type and query. */
  function ArgOf(k: string, v: Value): (r: Result<seq<string>>)
    ensures r.Success? <==> k == "fields" ==> v.VList?
    ensures k == "fields" && v.VList? ==> r == Success(["fields=" + Join(v.items, ",")])
  {
    assert "fields" + "=" == "fields=";
    if k == "fields" then
      var joined :- JoinFields(Some(v));
      Success([k + "=" + joined])
    else if k in RequiredKeys then Success([])
    else Success([k + "=" + Render(v)])
  }

  /** `params.map do |k, v| ... end.filter { |q| q }`: `k=v` for every entry but type and query,
      with the `fields` Array joined by commas. */
  function ArgsOf(h: Hash): (r: Result<seq<string>>)
    ensures r.Success? <==> FieldsJoinable(h)
    ensures r.Failure? ==> r.error.NoMethodError? && r.error.name == "join"
  {
    if h == [] then Success([])
    else
      assert FieldsJoinable(h) <==> (h[0].0 == "fields" ==> h[0].1.VList?) && FieldsJoinable(h[1..]) by {
        assert forall i :: 1 <= i < |h| ==> h[i] == h[1..][i - 1];
      }
      var head :- ArgOf(h[0].0, h[0].1);
      var tail :- ArgsOf(h[1..]);
      Success(head + tail)
  }

  lemma ArgsOfCons(k: string, v: Value, rest: Hash)
    requires ArgOf(k, v).Success? && FieldsJoinable(rest)
    ensures ArgsOf([(k, v)] + rest) == Success(ArgOf(k, v).value + ArgsOf(rest).value)
  {
    var h := [(k, v)] + rest;
    assert h[0] == (k, v) && h[1..] == rest;
  }

  lemma {:induction false} ArgsAppend(a: Hash, b: Hash)
    requires FieldsJoinable(a) && FieldsJoinable(b)
    ensures ArgsOf(a + b) == Success(ArgsOf(a).value + ArgsOf(b).value)
  {
    if a != [] {
      assert (a + b)[0] == a[0] && (a + b)[1..] == a[1..] + b;
      assert FieldsJoinable(a[1..]) by {
        assert forall i :: 1 <= i < |a| ==> a[i] == a[1..][i - 1];
      }
      ArgsAppend(a[1..], b);
      var head := ArgOf(a[0].0, a[0].1).value;
      assert ArgsOf(a) == Success(head + ArgsOf(a[1..]).value);
      assert ArgsOf(a + b) == Success(head + ArgsOf(a[1..] + b).value);
      var x, y := ArgsOf(a[1..]).value, ArgsOf(b).value;
      assert head + (x + y) == (head + x) + y;
    } else {
      assert a + b == b;
      assert ArgsOf(a).value + ArgsOf(b).value == ArgsOf(b).value;
    }
  }

  /** When every authorized entry is type or query, nothing is left for the argument list. */
  lemma {:induction false} OnlyRequiredKept(h: Hash)
    requires forall i :: 0 <= i < |h| && IsAuthorized(h[i].0) ==> h[i].0 in RequiredKeys
    ensures FieldsJoinable(Authorized(h)) && ArgsOf(Authorized(h)) == Success([])
  {
    if h != [] {
      assert forall i :: 1 <= i < |h| ==> h[i] == h[1..][i - 1];
      OnlyRequiredKept(h[1..]);
      var rest := Authorized(h[1..]);
      if IsAuthorized(h[0].0) {
        var kept := [h[0]] + rest;
        assert kept[0] == h[0] && kept[1..] == rest;
        assert FieldsJoinable(kept) by {
          assert forall i :: 1 <= i < |kept| ==> kept[i] == rest[i - 1];
        }
      } else {
        assert Authorized(h) == rest;
      }
    }
  }

  function MissingMessage(missing: seq<string>): string
  {
    MissingPrefix + Join(missing, ", ")
  }

  /** A `Base` instance: it only remembers the base URL. */
  datatype Api = Api(baseUrl: string) {

    /** `@base_url.end_with?("/") ? "" : "/"` */
    function Prefix(): (r: string)
      ensures EndsWith(baseUrl + r, "/")
      ensures r == "" <==> EndsWith(baseUrl, "/")
      ensures !EndsWith(baseUrl, "/") ==> r == "/"
    {
      if EndsWith(baseUrl, "/") then
        assert baseUrl + "" == baseUrl;
        ""
      else
        var u := baseUrl + "/";
        assert u[|u| - 1..] == "/";
        "/"
    }

    /** The base URL followed by the prefix ends in `/`, and in `//` exactly when the base URL does. */
    lemma SlashJoin()
      ensures EndsWith(baseUrl + Prefix(), "/")
      ensures EndsWith(baseUrl + Prefix(), "//") <==> EndsWith(baseUrl, "//")
    {
      var u := baseUrl + Prefix();
      if !EndsWith(baseUrl, "/") {
        assert u[|u| - 1] == '/';
        if |baseUrl| > 0 {
          var last := baseUrl[|baseUrl| - 1];
          assert baseUrl[|baseUrl| - 1..] == [last];
          assert u[|u| - 2..] == [last, '/'];
          if |baseUrl| > 1 {
            assert baseUrl[|baseUrl| - 2..] == [baseUrl[|baseUrl| - 2], last];
          }
        }
      }
    }

    /** The direct shape `type/query?fields=f1,f2`. */
    function Direct(typ: Value, query: string, fields: Option<Value>): (r: Result<string>)
      ensures r.Success? <==> fields.Some? && fields.value.VList?
      ensures fields.None? ==> r == Failure(NoMethodError("join", NilClass))
      ensures r.Success? ==> Prefix() + Render(typ) + "/" + query + "?fields=" <= r.value
    {
      var joined :- JoinFields(fields);
      Success(Prefix() + Render(typ) + "/" + query + "?fields=" + joined)
    }

    /** The search shape `type?q=query&k=v&...`, with nothing removed after the `&`. */
    function SearchUrl(typ: Value, query: string, kept: Hash): (r: Result<string>)
      ensures r.Success? <==> FieldsJoinable(kept)
      ensures r.Failure? ==> r.error.NoMethodError? && r.error.name == "join"
      ensures r.Success? ==> Prefix() + Render(typ) + "?q=" + query + "&" <= r.value
    {
      var args :- ArgsOf(kept);
      Success(Prefix() + Render(typ) + "?q=" + query + "&" + Join(args, "&"))
    }

    /** The branch on the filtered Hash: a digit in the query, or a `separator` of `"?"` (which the
        filter has already removed), selects the direct shape. */
    function Shape(kept: Hash): (r: Result<string>)
      requires HasKey(kept, "type") && HasKey(kept, "query")
      ensures r.Failure? ==> r.error.NoMethodError?
      ensures r.Success? ==> Prefix() <= r.value
    {
      var typ := Lookup(kept, "type").value;
      match Lookup(kept, "query").value
      case VStr(q) =>
        if ContainsDigit(q) || Lookup(kept, "separator") == Some(VStr("?")) then Direct(typ, q, Lookup(kept, "fields"))
        else SearchUrl(typ, q, kept)
      case VInt(_) => Failure(NoMethodError("match", IntegerClass))
      case VList(_) => Failure(NoMethodError("match", ArrayClass))
    }

    /** What `build_query(params)` returns or raises. */
    function Build(params: Hash): (r: Result<string>)
      ensures r.Failure? ==> r.error.ArgumentError? || r.error.NoMethodError?
      ensures r.Success? ==> Prefix() <= r.value
    {
      var missing := MissingOf(RequiredKeys, params);
      if missing != [] then Failure(ArgumentError(MissingMessage(missing)))
      else
        MissingRequired(params);
        RequiredAreAuthorized();
        AuthorizedLookup(params, "type");
        AuthorizedLookup(params, "query");
        Shape(Authorized(params))
    }

    /** `build_query`: the caller's Hash is updated in place (`after` is its new content) and the
        suffix is returned or an exception raised. The filter runs only once validation has passed. */
    method BuildQuery(params: Hash) returns (after: Hash, r: Result<string>)
      ensures r == Build(params)
      ensures after == if MissingOf(RequiredKeys, params) == [] then Authorized(params) else params
    {
      // transform_keys!(&:to_s): every key is already its own name
      after := params;
      var missing := MissingOf(RequiredKeys, after);
      if missing != [] {
        r := Failure(ArgumentError(MissingMessage(missing)));
        return;
      }
      // select!: keep the authorized entries, in order
      var kept: Hash := [];
      var i := 0;
      while i < |after|
        invariant 0 <= i <= |after|
        invariant kept == Authorized(after[..i])
      {
        assert after[..i + 1] == after[..i] + [after[i]];
        AuthorizedAppend(after[..i], [after[i]]);
        if IsAuthorized(after[i].0) {
          kept := kept + [after[i]];
        }
        i := i + 1;
      }
      assert after[..i] == after;
      after := kept;
      MissingRequired(params);
      RequiredAreAuthorized();
      AuthorizedLookup(params, "type");
      AuthorizedLookup(params, "query");
      r := Shape(after);
    }

    /** `parse(param)`: the transport (`RestClient.get` followed by `JSON.parse`) is the function `fetch`. */
    function Parse(param: string, fetch: string -> Json): Json
    {
      fetch(baseUrl + param)
    }

    /** Validation raises `ArgumentError` exactly when type or query is missing, naming every missing key. */
    lemma MissingKeysRaise(params: Hash)
      ensures Build(params).Failure? && Build(params).error.ArgumentError?
              <==> !HasKey(params, "type") || !HasKey(params, "query")
      ensures !HasKey(params, "type") && !HasKey(params, "query")
              ==> Build(params) == Failure(ArgumentError("Missing required keys: type, query"))
      ensures !HasKey(params, "type") && HasKey(params, "query")
              ==> Build(params) == Failure(ArgumentError("Missing required keys: type"))
      ensures HasKey(params, "type") && !HasKey(params, "query")
              ==> Build(params) == Failure(ArgumentError("Missing required keys: query"))
    {
      MissingRequired(params);
      assert Join(["type", "query"], ", ") == "type, query" by {
        assert ["type", "query"][1..] == ["query"];
      }
    }

    /** Only the authorized entries matter: the result is that of the filtered Hash. */
    lemma BuildIgnoresUnauthorized(params: Hash)
      ensures Build(params) == Build(Authorized(params))
    {
      var kept := Authorized(params);
      AuthorizedLookup(params, "type");
      AuthorizedLookup(params, "query");
      assert MissingOf(RequiredKeys, kept) == MissingOf(RequiredKeys, params);
      AuthorizedIdempotent(params);
    }

    /** Adding an entry whose key is not authorized, `separator` included, anywhere in the Hash
        changes neither the URL nor the error. */
    lemma BuildIgnoresEntry(before: Hash, k: string, v: Value, rest: Hash)
      requires !IsAuthorized(k)
      ensures Build(before + [(k, v)] + rest) == Build(before + rest)
    {
      var with := before + [(k, v)] + rest;
      assert Authorized([(k, v)]) == [] by {
        assert [(k, v)][1..] == [];
      }
      AuthorizedAppend(before + [(k, v)], rest);
      AuthorizedAppend(before, [(k, v)]);
      AuthorizedAppend(before, rest);
      assert Authorized(with) == Authorized(before + rest);
      calc {
        Build(with);
        { BuildIgnoresUnauthorized(with); }
        Build(Authorized(with));
        Build(Authorized(before + rest));
        { BuildIgnoresUnauthorized(before + rest); }
        Build(before + rest);
      }
    }

    /** A query with a digit selects the direct shape; without an Array under `fields` it raises. */
    lemma DirectShape(params: Hash, q: string)
      requires HasKey(params, "type")
      requires Lookup(params, "query") == Some(VStr(q)) && ContainsDigit(q)
      ensures Lookup(params, "fields").None? ==> Build(params) == Failure(NoMethodError("join", NilClass))
      ensures Build(params).Success? <==> Lookup(params, "fields").Some? && Lookup(params, "fields").value.VList?
      ensures Build(params).Success? ==>
                Build(params).value
                == Prefix() + Render(Lookup(params, "type").value) + "/" + q + "?fields="
                   + Join(Lookup(params, "fields").value.items, ",")
    {
      AuthorizedLookup(params, "type");
      AuthorizedLookup(params, "query");
      AuthorizedLookup(params, "fields");
      assert "type" !in MissingOf(RequiredKeys, params) && "query" !in MissingOf(RequiredKeys, params);
      assert MissingOf(RequiredKeys, params) == [];
    }

    /** A query without a digit selects the search shape whatever `separator` says; the arguments are
        the entries other than type and query, in insertion order. */
    lemma SearchShape(params: Hash, q: string)
      requires HasKey(params, "type")
      requires Lookup(params, "query") == Some(VStr(q)) && !ContainsDigit(q)
      ensures Build(params).Success? <==> FieldsJoinable(Authorized(params))
      ensures Build(params).Success? ==>
                Build(params).value
                == Prefix() + Render(Lookup(params, "type").value) + "?q=" + q + "&"
                   + Join(ArgsOf(Authorized(params)).value, "&")
    {
      AuthorizedLookup(params, "type");
      AuthorizedLookup(params, "query");
      AuthorizedLookup(params, "separator");
      assert "type" !in MissingOf(RequiredKeys, params) && "query" !in MissingOf(RequiredKeys, params);
      assert MissingOf(RequiredKeys, params) == [];
    }

    /** With nothing kept besides type and query, the search shape ends in a dangling `&`. */
    lemma TrailingAmpersand(params: Hash, q: string)
      requires HasKey(params, "type")
      requires Lookup(params, "query") == Some(VStr(q)) && !ContainsDigit(q)
      requires forall i :: 0 <= i < |params| && IsAuthorized(params[i].0) ==> params[i].0 in RequiredKeys
      ensures Build(params) == Success(Prefix() + Render(Lookup(params, "type").value) + "?q=" + q + "&")
    {
      SearchShape(params, q);
      OnlyRequiredKept(params);
      var head := Prefix() + Render(Lookup(params, "type").value) + "?q=" + q + "&";
      assert ArgsOf(Authorized(params)).value == [];
      assert Join(ArgsOf(Authorized(params)).value, "&") == "";
      assert head + "" == head;
    }
  }
}
