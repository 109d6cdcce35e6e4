/** The case synthesizer: `ApiParser.parse_json_data`, `_parse_get_json_data`,
    `_parse_post_json_data` and `parse_event_data`.

    A template document names an HTTP method and, for GET, a parameter spec under `params`; for
    POST, a body with a `mode` and a parameter spec under `data`. Every case is named
    `{base}_{true|false}_{timestamp}` and all `'true'` cases come before all `'false'` cases. */
module Synthesizer {
  import opened Wrappers
  import opened Dicts
  import opened Strings
  import opened Requests
  import opened Combinator

  /** The `body` object of a POST template; a field is `None` when the key is absent. */
  datatype BodySpec = BodySpec(mode: Option<string>, data: Option<ParamSpec>)

  /** A template document; a field is `None` when `data.get(key)` gives `None`. */
  datatype Template = Template(
    httpMethod: Option<string>,
    name: Option<string>,
    uri: Option<string>,
    headers: Option<Dict<Value>>,
    query: Option<Dict<Value>>,
    params: Option<ParamSpec>,
    body: Option<BodySpec>)

  /** `hdrs.METH_GET` and `hdrs.METH_POST`. */
  const MethGet := "GET"
  const MethPost := "POST"

  /** The polarities, in the order the source loops over them. */
  const Flags := [true, false]

  /** The parameter specs of a template are dicts: their keys are distinct. */
  predicate WellFormedTemplate(t: Template) {
    && (t.params.Some? ==> DistinctKeys(t.params.value))
    && (t.body.Some? && t.body.value.data.Some? ==> DistinctKeys(t.body.value.data.value))
  }

  /** The template's own `name` if it has one, else the caller's. */
  function BaseName(name: string, t: Template): string {
    if t.name.None? then name else t.name.value
  }

  function CaseUri(uri: string, t: Template): string {
    if t.uri.None? then uri else t.uri.value
  }

  /** `'{name}_{flag}_{date}'`, the date being the synthesis timestamp to the second. */
  function CaseName(base: string, flag: bool, stamp: string): string {
    base + "_" + FlagName(flag) + "_" + stamp
  }

  // ---------------------------------------------------------------------------------------------
  // GET

  function GetCase(host: string, name: string, uri: string, t: Template, stamp: string, flag: bool, row: Row): RequestCase {
    RequestCase(CaseName(BaseName(name, t), flag, stamp), host, CaseUri(uri, t), MethGet,
                t.headers, t.query, Some(row), None, flag)
  }

  /** One GET case per row of one polarity. */
  function GetCasesFor(host: string, name: string, uri: string, t: Template, stamp: string, flag: bool, rows: seq<Row>): seq<RequestCase> {
    seq(|rows|, k requires 0 <= k < |rows| => GetCase(host, name, uri, t, stamp, flag, rows[k]))
  }

  /** The GET cases for the polarities `flags`, in order; the first `create_params` error aborts. */
  function GetFlagCases(host: string, name: string, uri: string, t: Template, stamp: string, pick: Picker, params: ParamSpec, flags: seq<bool>): Result<seq<RequestCase>>
    decreases |flags|
  {
    if |flags| == 0 then Ok([])
    else
      var prev :- GetFlagCases(host, name, uri, t, stamp, pick, params, flags[..|flags| - 1]);
      var rows :- Combine(params, flags[|flags| - 1], pick);
      Ok(prev + GetCasesFor(host, name, uri, t, stamp, flags[|flags| - 1], rows))
  }

  /** `_parse_get_json_data(name, uri, data)`. */
  function GetCases(host: string, name: string, uri: string, t: Template, stamp: string, pick: Picker): Result<seq<RequestCase>> {
    if t.params.None? then Err(ValueError("GET case can't found params data"))
    else if |t.params.value| == 0 then Ok([GetCase(host, name, uri, t, stamp, true, [])])
    else GetFlagCases(host, name, uri, t, stamp, pick, t.params.value, Flags)
  }

  /** `_parse_get_json_data`, as the loops the source runs. */
  method ParseGetJsonData(host: string, name: string, uri: string, t: Template, stamp: string, pick: Picker)
    returns (r: Result<seq<RequestCase>>)
    requires WellFormedTemplate(t)
    ensures r == GetCases(host, name, uri, t, stamp, pick)
  {
    if t.params.None? {
      return Err(ValueError("GET case can't found params data"));
    }
    var params := t.params.value;
    if |params| == 0 {
      return Ok([GetCase(host, name, uri, t, stamp, true, [])]);
    }
    var cases: seq<RequestCase> := [];
    for f := 0 to |Flags|
      invariant GetFlagCases(host, name, uri, t, stamp, pick, params, Flags[..f]) == Ok(cases)
    {
      var flag := Flags[f];
      assert Flags[..f + 1][..f] == Flags[..f];
      var rows := CreateParams(params, flag, pick);
      if rows.Err? {
        ErrorPropagates(host, name, uri, t, stamp, pick, params, f + 1);
        return Err(rows.error);
      }
      cases := AppendGetCases(cases, host, name, uri, t, stamp, flag, rows.value);
    }
    assert Flags[..|Flags|] == Flags;
    return Ok(cases);
  }

  /** The inner loop of `_parse_get_json_data`: one case appended per row of one polarity. */
  method AppendGetCases(cases: seq<RequestCase>, host: string, name: string, uri: string, t: Template, stamp: string,
                        flag: bool, rows: seq<Row>)
    returns (out: seq<RequestCase>)
    ensures out == cases + GetCasesFor(host, name, uri, t, stamp, flag, rows)
  {
    out := cases;
    for k := 0 to |rows|
      invariant out == cases + GetCasesFor(host, name, uri, t, stamp, flag, rows)[..k]
    {
      SliceGrow(GetCasesFor(host, name, uri, t, stamp, flag, rows), k);
      out := out + [GetCase(host, name, uri, t, stamp, flag, rows[k])];
    }
    assert GetCasesFor(host, name, uri, t, stamp, flag, rows)[..|rows|]
      == GetCasesFor(host, name, uri, t, stamp, flag, rows);
  }

  /** An error for an earlier polarity is the error for the whole run. */
  lemma ErrorPropagates(host: string, name: string, uri: string, t: Template, stamp: string, pick: Picker, params: ParamSpec, n: nat)
    requires n <= |Flags|
    requires GetFlagCases(host, name, uri, t, stamp, pick, params, Flags[..n]).Err?
    ensures GetFlagCases(host, name, uri, t, stamp, pick, params, Flags)
         == GetFlagCases(host, name, uri, t, stamp, pick, params, Flags[..n])
  {
    assert Flags[..|Flags|] == Flags;
    if n == 1 {
      assert Flags[..|Flags| - 1] == Flags[..1];
    }
  }

  // ---------------------------------------------------------------------------------------------
  // POST

  /** The body variant the `mode` string selects, or `None` for any other mode. */
  function MakeBody(mode: string, row: Row): Option<RequestBody> {
    if mode == FormData.Value() then Some(FormDataRequestBody(row))
    else if mode == UrlEncoded.Value() then Some(UrlEncodedRequestBody(row))
    else if mode == Raw.Value() then Some(RawRequestBody(row))
    else None
  }

  /** The mode string picks a body variant exactly when it names one, and that variant's mode
      reads back as the same string. */
  lemma MakeBodyMode(mode: string, row: Row)
    ensures MakeBody(mode, row).Some? <==> mode == "formdata" || mode == "urlencoded" || mode == "raw"
    ensures MakeBody(mode, row).Some? ==> MakeBody(mode, row).value.Mode().Value() == mode && MakeBody(mode, row).value.data == row
  {
  }

  function PostCase(host: string, name: string, uri: string, t: Template, stamp: string, flag: bool, mode: string, row: Row): RequestCase {
    RequestCase(CaseName(BaseName(name, t), flag, stamp), host, CaseUri(uri, t), MethPost,
                t.headers, t.query, None, MakeBody(mode, row), flag)
  }

  /** One POST case per row of one polarity; `mode` is read only when there is a row. */
  function PostCasesFor(host: string, name: string, uri: string, t: Template, stamp: string, flag: bool, mode: Option<string>, rows: seq<Row>): seq<RequestCase>
    requires |rows| == 0 || mode.Some?
  {
    seq(|rows|, k requires 0 <= k < |rows| => PostCase(host, name, uri, t, stamp, flag, mode.value, rows[k]))
  }

  /** The POST cases for the polarities `flags`, in order: `body['data']` is read once per
      polarity and `body['mode']` once per row, and the first error aborts. */
  function PostFlagCases(host: string, name: string, uri: string, t: Template, stamp: string, pick: Picker, body: BodySpec, flags: seq<bool>): Result<seq<RequestCase>>
    decreases |flags|
  {
    if |flags| == 0 then Ok([])
    else
      var prev :- PostFlagCases(host, name, uri, t, stamp, pick, body, flags[..|flags| - 1]);
      if body.data.None? then Err(KeyError("data"))
      else
        var rows :- Combine(body.data.value, flags[|flags| - 1], pick);
        if |rows| > 0 && body.mode.None? then Err(KeyError("mode"))
        else Ok(prev + PostCasesFor(host, name, uri, t, stamp, flags[|flags| - 1], body.mode, rows))
  }

  /** `_parse_post_json_data(name, uri, data)`. */
  function PostCases(host: string, name: string, uri: string, t: Template, stamp: string, pick: Picker): Result<seq<RequestCase>> {
    if t.body.None? then Err(ValueError("POST case can't found body data"))
    else PostFlagCases(host, name, uri, t, stamp, pick, t.body.value, Flags)
  }

  lemma PostErrorPropagates(host: string, name: string, uri: string, t: Template, stamp: string, pick: Picker, body: BodySpec, n: nat)
    requires n <= |Flags|
    requires PostFlagCases(host, name, uri, t, stamp, pick, body, Flags[..n]).Err?
    ensures PostFlagCases(host, name, uri, t, stamp, pick, body, Flags)
         == PostFlagCases(host, name, uri, t, stamp, pick, body, Flags[..n])
  {
    assert Flags[..|Flags|] == Flags;
    if n == 1 {
      assert Flags[..|Flags| - 1] == Flags[..1];
    }
  }

  /** `_parse_post_json_data`, as the loops the source runs. */
  method ParsePostJsonData(host: string, name: string, uri: string, t: Template, stamp: string, pick: Picker)
    returns (r: Result<seq<RequestCase>>)
    requires WellFormedTemplate(t)
    ensures r == PostCases(host, name, uri, t, stamp, pick)
  {
    if t.body.None? {
      return Err(ValueError("POST case can't found body data"));
    }
    var body := t.body.value;
    var cases: seq<RequestCase> := [];
    for f := 0 to |Flags|
      invariant PostFlagCases(host, name, uri, t, stamp, pick, body, Flags[..f]) == Ok(cases)
    {
      var flag := Flags[f];
      assert Flags[..f + 1][..f] == Flags[..f];
      if body.data.None? {
        PostErrorPropagates(host, name, uri, t, stamp, pick, body, f + 1);
        return Err(KeyError("data"));
      }
      var rows := CreateParams(body.data.value, flag, pick);
      if rows.Err? {
        PostErrorPropagates(host, name, uri, t, stamp, pick, body, f + 1);
        return Err(rows.error);
      }
      if |rows.value| > 0 && body.mode.None? {
        PostErrorPropagates(host, name, uri, t, stamp, pick, body, f + 1);
        return Err(KeyError("mode"));
      }
      cases := AppendPostCases(cases, host, name, uri, t, stamp, flag, body.mode, rows.value);
    }
    assert Flags[..|Flags|] == Flags;
    return Ok(cases);
  }

  /** The inner loop of `_parse_post_json_data`: one case appended per row of one polarity. */
  method AppendPostCases(cases: seq<RequestCase>, host: string, name: string, uri: string, t: Template, stamp: string,
                         flag: bool, mode: Option<string>, rows: seq<Row>)
    returns (out: seq<RequestCase>)
    requires |rows| == 0 || mode.Some?
    ensures out == cases + PostCasesFor(host, name, uri, t, stamp, flag, mode, rows)
  {
    out := cases;
    for k := 0 to |rows|
      invariant out == cases + PostCasesFor(host, name, uri, t, stamp, flag, mode, rows)[..k]
    {
      var bodyObj := MakeBody(mode.value, rows[k]);
      SliceGrow(PostCasesFor(host, name, uri, t, stamp, flag, mode, rows), k);
      out := out + [RequestCase(CaseName(BaseName(name, t), flag, stamp), host, CaseUri(uri, t), MethPost,
                                t.headers, t.query, None, bodyObj, flag)];
    }
    assert PostCasesFor(host, name, uri, t, stamp, flag, mode, rows)[..|rows|]
      == PostCasesFor(host, name, uri, t, stamp, flag, mode, rows);
  }

  // ---------------------------------------------------------------------------------------------
  // parse_json_data

  /** `parse_json_data(name, uri, data)`: `Ok(None)` stands for the `None` it returns for a method
      other than GET and POST. */
  function ParseJson(host: string, name: string, uri: string, t: Template, stamp: string, pick: Picker): Result<Option<seq<RequestCase>>> {
    if t.httpMethod.None? then Err(ValueError("can't found method in case json file with: " + name))
    else
      var m := Upper(t.httpMethod.value);
      if m == MethGet then
        var cases :- GetCases(host, name, uri, t, stamp, pick);
        Ok(Some(cases))
      else if m == MethPost then
        var cases :- PostCases(host, name, uri, t, stamp, pick);
        Ok(Some(cases))
      else Ok(None)
  }

  /** `parse_json_data`, dispatching to the two methods above. */
  method ParseJsonData(host: string, name: string, uri: string, t: Template, stamp: string, pick: Picker)
    returns (r: Result<Option<seq<RequestCase>>>)
    requires WellFormedTemplate(t)
    ensures r == ParseJson(host, name, uri, t, stamp, pick)
  {
    if t.httpMethod.None? {
      return Err(ValueError("can't found method in case json file with: " + name));
    }
    var m := Upper(t.httpMethod.value);
    if m == MethGet {
      var cases :- ParseGetJsonData(host, name, uri, t, stamp, pick);
      return Ok(Some(cases));
    }
    if m == MethPost {
      var cases :- ParsePostJsonData(host, name, uri, t, stamp, pick);
      return Ok(Some(cases));
    }
    return Ok(None);
  }

  // ---------------------------------------------------------------------------------------------
  // What synthesis promises

  /** A GET template whose `params` is empty gives exactly one case: valid, with empty params,
      the template's query and headers, and a `true` name. */
  lemma GetEmptyParams(host: string, name: string, uri: string, t: Template, stamp: string, pick: Picker)
    requires t.params == Some([])
    ensures GetCases(host, name, uri, t, stamp, pick).Ok?
    ensures var cases := GetCases(host, name, uri, t, stamp, pick).value;
      && |cases| == 1
      && cases[0].expectResult
      && cases[0].params == Some([])
      && cases[0].httpMethod == MethGet
      && cases[0].query == t.query && cases[0].headers == t.headers && cases[0].body.None?
      && cases[0].name == BaseName(name, t) + "_true_" + stamp
  {
  }

  /** Unfolds the two-polarity loop: the `'true'` results, then the `'false'` ones. */
  lemma GetFlagCasesUnfold(host: string, name: string, uri: string, t: Template, stamp: string, pick: Picker, params: ParamSpec)
    ensures var tr := Combine(params, true, pick);
            var fa := Combine(params, false, pick);
            GetFlagCases(host, name, uri, t, stamp, pick, params, Flags)
              == if tr.Err? then Err(tr.error)
                 else if fa.Err? then Err(fa.error)
                 else Ok(GetCasesFor(host, name, uri, t, stamp, true, tr.value)
                         + GetCasesFor(host, name, uri, t, stamp, false, fa.value))
  {
    var tr := Combine(params, true, pick);
    assert Flags[..|Flags|] == Flags;
    assert Flags[..|Flags| - 1] == [true];
    assert [true][..0] == [];
    assert GetFlagCases(host, name, uri, t, stamp, pick, params, [])  == Ok([]);
    if tr.Ok? {
      assert [] + GetCasesFor(host, name, uri, t, stamp, true, tr.value) == GetCasesFor(host, name, uri, t, stamp, true, tr.value);
    }
    assert GetFlagCases(host, name, uri, t, stamp, pick, params, [true])
      == if tr.Err? then Err(tr.error) else Ok(GetCasesFor(host, name, uri, t, stamp, true, tr.value));
  }

  /** The cases of the `'true'` rows followed by those of the `'false'` rows: one per row, valid
      ones first, each with its row as `params` and the template's fixed fields. */
  lemma GetTwoPolarities(host: string, name: string, uri: string, t: Template, stamp: string, tr: seq<Row>, fa: seq<Row>)
    ensures var cs := GetCasesFor(host, name, uri, t, stamp, true, tr) + GetCasesFor(host, name, uri, t, stamp, false, fa);
      && |cs| == |tr| + |fa|
      && (forall k :: 0 <= k < |tr| ==> cs[k].expectResult && cs[k].params == Some(tr[k]))
      && (forall k :: |tr| <= k < |cs| ==> !cs[k].expectResult && cs[k].params == Some(fa[k - |tr|]))
      && (forall a, b :: 0 <= a < b < |cs| && !cs[a].expectResult ==> !cs[b].expectResult)
      && (forall c :: c in cs ==>
            && c.httpMethod == MethGet && c.host == host && c.uri == CaseUri(uri, t)
            && c.query == t.query && c.headers == t.headers && c.body.None?
            && c.name == CaseName(BaseName(name, t), c.expectResult, stamp))
  {
    var cs := GetCasesFor(host, name, uri, t, stamp, true, tr) + GetCasesFor(host, name, uri, t, stamp, false, fa);
    var n := |tr|;
    forall k | n <= k < |cs|
      ensures cs[k] == GetCase(host, name, uri, t, stamp, false, fa[k - n])
    {
    }
    forall k | 0 <= k < n
      ensures cs[k] == GetCase(host, name, uri, t, stamp, true, tr[k])
    {
    }
    assert forall k :: 0 <= k < |cs| ==> cs[k].expectResult == (k < n);
  }

  /** A GET template with parameters: one case per `create_params` row of each polarity, all
      `'true'` cases (expected to succeed) before all `'false'` cases (expected to fail), each
      carrying its row as `params`, named after the template's name or else the caller's. */
  lemma GetCasesShape(host: string, name: string, uri: string, t: Template, stamp: string, pick: Picker)
    requires t.params.Some? && |t.params.value| > 0
    ensures var r := GetCases(host, name, uri, t, stamp, pick);
            var tr := Combine(t.params.value, true, pick);
            var fa := Combine(t.params.value, false, pick);
      && (r.Ok? <==> tr.Ok? && fa.Ok?)
      && (r.Err? ==> r.error == if tr.Err? then tr.error else fa.error)
      && (r.Ok? ==>
        && |r.value| == |tr.value| + |fa.value|
        && (forall k :: 0 <= k < |tr.value| ==>
              r.value[k].expectResult && r.value[k].params == Some(tr.value[k]))
        && (forall k :: |tr.value| <= k < |r.value| ==>
              !r.value[k].expectResult && r.value[k].params == Some(fa.value[k - |tr.value|]))
        && (forall a, b :: 0 <= a < b < |r.value| && !r.value[a].expectResult ==> !r.value[b].expectResult)
        && (forall c :: c in r.value ==>
              && c.httpMethod == MethGet && c.host == host && c.uri == CaseUri(uri, t)
              && c.query == t.query && c.headers == t.headers && c.body.None?
              && c.name == CaseName(BaseName(name, t), c.expectResult, stamp)))
  {
    var tr := Combine(t.params.value, true, pick);
    var fa := Combine(t.params.value, false, pick);
    GetFlagCasesUnfold(host, name, uri, t, stamp, pick, t.params.value);
    if tr.Ok? && fa.Ok? {
      GetTwoPolarities(host, name, uri, t, stamp, tr.value, fa.value);
    }
  }

  lemma PostFlagCasesUnfold(host: string, name: string, uri: string, t: Template, stamp: string, pick: Picker, body: BodySpec)
    requires body.data.Some? && body.mode.Some?
    ensures var tr := Combine(body.data.value, true, pick);
            var fa := Combine(body.data.value, false, pick);
            PostFlagCases(host, name, uri, t, stamp, pick, body, Flags)
              == if tr.Err? then Err(tr.error)
                 else if fa.Err? then Err(fa.error)
                 else Ok(PostCasesFor(host, name, uri, t, stamp, true, body.mode, tr.value)
                         + PostCasesFor(host, name, uri, t, stamp, false, body.mode, fa.value))
  {
    var tr := Combine(body.data.value, true, pick);
    assert Flags[..|Flags|] == Flags;
    assert Flags[..|Flags| - 1] == [true];
    assert [true][..0] == [];
    assert PostFlagCases(host, name, uri, t, stamp, pick, body, []) == Ok([]);
    if tr.Ok? {
      assert [] + PostCasesFor(host, name, uri, t, stamp, true, body.mode, tr.value) == PostCasesFor(host, name, uri, t, stamp, true, body.mode, tr.value);
    }
    assert PostFlagCases(host, name, uri, t, stamp, pick, body, [true])
      == if tr.Err? then Err(tr.error) else Ok(PostCasesFor(host, name, uri, t, stamp, true, body.mode, tr.value));
  }

  /** The POST cases of the `'true'` rows followed by those of the `'false'` rows. */
  lemma PostTwoPolarities(host: string, name: string, uri: string, t: Template, stamp: string, mode: string, tr: seq<Row>, fa: seq<Row>)
    ensures var cs := PostCasesFor(host, name, uri, t, stamp, true, Some(mode), tr)
                    + PostCasesFor(host, name, uri, t, stamp, false, Some(mode), fa);
      && |cs| == |tr| + |fa|
      && (forall k :: 0 <= k < |tr| ==> cs[k].expectResult && cs[k].body == MakeBody(mode, tr[k]))
      && (forall k :: |tr| <= k < |cs| ==> !cs[k].expectResult && cs[k].body == MakeBody(mode, fa[k - |tr|]))
      && (forall a, b :: 0 <= a < b < |cs| && !cs[a].expectResult ==> !cs[b].expectResult)
      && (forall c :: c in cs ==>
            && c.httpMethod == MethPost && c.host == host && c.uri == CaseUri(uri, t)
            && c.query == t.query && c.headers == t.headers && c.params.None?
            && c.name == CaseName(BaseName(name, t), c.expectResult, stamp))
  {
    var cs := PostCasesFor(host, name, uri, t, stamp, true, Some(mode), tr)
            + PostCasesFor(host, name, uri, t, stamp, false, Some(mode), fa);
    var n := |tr|;
    forall k | n <= k < |cs|
      ensures cs[k] == PostCase(host, name, uri, t, stamp, false, mode, fa[k - n])
    {
    }
    forall k | 0 <= k < n
      ensures cs[k] == PostCase(host, name, uri, t, stamp, true, mode, tr[k])
    {
    }
    assert forall k :: 0 <= k < |cs| ==> cs[k].expectResult == (k < n);
  }

  /** A POST template with `data` and `mode`: one case per `create_params` row of each polarity,
      `'true'` cases before `'false'` cases, each with the body variant its mode string selects
      over its row (none for an unknown mode) and no `params`. */
  lemma PostCasesShape(host: string, name: string, uri: string, t: Template, stamp: string, pick: Picker)
    requires t.body.Some? && t.body.value.data.Some? && t.body.value.mode.Some?
    ensures var r := PostCases(host, name, uri, t, stamp, pick);
            var mode := t.body.value.mode.value;
            var tr := Combine(t.body.value.data.value, true, pick);
            var fa := Combine(t.body.value.data.value, false, pick);
      && (r.Ok? <==> tr.Ok? && fa.Ok?)
      && (r.Err? ==> r.error == if tr.Err? then tr.error else fa.error)
      && (r.Ok? ==>
        && |r.value| == |tr.value| + |fa.value|
        && (forall k :: 0 <= k < |tr.value| ==>
              r.value[k].expectResult && r.value[k].body == MakeBody(mode, tr.value[k]))
        && (forall k :: |tr.value| <= k < |r.value| ==>
              !r.value[k].expectResult && r.value[k].body == MakeBody(mode, fa.value[k - |tr.value|]))
        && (forall a, b :: 0 <= a < b < |r.value| && !r.value[a].expectResult ==> !r.value[b].expectResult)
        && (forall c :: c in r.value ==>
              && c.httpMethod == MethPost && c.host == host && c.uri == CaseUri(uri, t)
              && c.query == t.query && c.headers == t.headers && c.params.None?
              && c.name == CaseName(BaseName(name, t), c.expectResult, stamp)))
  {
    var tr := Combine(t.body.value.data.value, true, pick);
    var fa := Combine(t.body.value.data.value, false, pick);
    PostFlagCasesUnfold(host, name, uri, t, stamp, pick, t.body.value);
    if tr.Ok? && fa.Ok? {
      PostTwoPolarities(host, name, uri, t, stamp, t.body.value.mode.value, tr.value, fa.value);
    }
  }

  /** With `mode` absent, one polarity succeeds only when it has no row. */
  lemma PostNoModeStep(host: string, name: string, uri: string, t: Template, stamp: string, pick: Picker, body: BodySpec, flags: seq<bool>)
    requires body.data.Some? && body.mode.None? && |flags| > 0
    ensures var rows := Combine(body.data.value, flags[|flags| - 1], pick);
            var prev := PostFlagCases(host, name, uri, t, stamp, pick, body, flags[..|flags| - 1]);
      PostFlagCases(host, name, uri, t, stamp, pick, body, flags)
        == if prev.Err? then prev
           else if rows.Err? then Err(rows.error)
           else if |rows.value| > 0 then Err(KeyError("mode"))
           else prev
  {
    var prev := PostFlagCases(host, name, uri, t, stamp, pick, body, flags[..|flags| - 1]);
    var rows := Combine(body.data.value, flags[|flags| - 1], pick);
    if prev.Ok? && rows.Ok? && |rows.value| == 0 {
      assert PostCasesFor(host, name, uri, t, stamp, flags[|flags| - 1], body.mode, rows.value) == [];
      assert prev.value + [] == prev.value;
    }
  }

  /** The POST error paths: no `body`, a body without `data`, and a body without `mode`, which
      fails with `KeyError('mode')` only once a polarity has a row to build. */
  lemma PostMissingFields(host: string, name: string, uri: string, t: Template, stamp: string, pick: Picker)
    ensures t.body.None? ==> PostCases(host, name, uri, t, stamp, pick) == Err(ValueError("POST case can't found body data"))
    ensures t.body.Some? && t.body.value.data.None? ==> PostCases(host, name, uri, t, stamp, pick) == Err(KeyError("data"))
    ensures t.body.Some? && t.body.value.data.Some? && t.body.value.mode.None? ==>
      var tr := Combine(t.body.value.data.value, true, pick);
      var fa := Combine(t.body.value.data.value, false, pick);
      PostCases(host, name, uri, t, stamp, pick)
        == if tr.Err? then Err(tr.error)
           else if |tr.value| > 0 then Err(KeyError("mode"))
           else if fa.Err? then Err(fa.error)
           else if |fa.value| > 0 then Err(KeyError("mode"))
           else Ok([])
  {
    assert Flags[..|Flags|] == Flags;
    assert Flags[..|Flags| - 1] == [true];
    assert [true][..0] == [];
    if t.body.Some? {
      var body := t.body.value;
      if body.data.Some? && body.mode.None? {
        PostNoModeStep(host, name, uri, t, stamp, pick, body, [true]);
        PostNoModeStep(host, name, uri, t, stamp, pick, body, Flags);
      }
    }
  }

  lemma {:induction false} GetFlagCasesMethod(host: string, name: string, uri: string, t: Template, stamp: string, pick: Picker, params: ParamSpec, flags: seq<bool>)
    ensures GetFlagCases(host, name, uri, t, stamp, pick, params, flags).Ok? ==>
      forall c :: c in GetFlagCases(host, name, uri, t, stamp, pick, params, flags).value ==> c.httpMethod == MethGet
    decreases |flags|
  {
    if |flags| > 0 {
      GetFlagCasesMethod(host, name, uri, t, stamp, pick, params, flags[..|flags| - 1]);
    }
  }

  lemma {:induction false} PostFlagCasesMethod(host: string, name: string, uri: string, t: Template, stamp: string, pick: Picker, body: BodySpec, flags: seq<bool>)
    ensures PostFlagCases(host, name, uri, t, stamp, pick, body, flags).Ok? ==>
      forall c :: c in PostFlagCases(host, name, uri, t, stamp, pick, body, flags).value ==> c.httpMethod == MethPost
    decreases |flags|
  {
    if |flags| > 0 {
      PostFlagCasesMethod(host, name, uri, t, stamp, pick, body, flags[..|flags| - 1]);
    }
  }

  /** `parse_json_data` raises when `method` is absent, upper-cases it, and hands GET and POST
      templates to their builders: their cases (each carrying the upper-cased method) or their
      error, a GET template without `params` raising `ValueError`; any other method gives
      `None`. */
  lemma ParseJsonDispatch(host: string, name: string, uri: string, t: Template, stamp: string, pick: Picker)
    ensures t.httpMethod.None? ==>
      ParseJson(host, name, uri, t, stamp, pick) == Err(ValueError("can't found method in case json file with: " + name))
    ensures t.httpMethod.Some? && Upper(t.httpMethod.value) != MethGet && Upper(t.httpMethod.value) != MethPost ==>
      ParseJson(host, name, uri, t, stamp, pick) == Ok(None)
    ensures t.httpMethod.Some? && Upper(t.httpMethod.value) == MethGet ==>
      var g := GetCases(host, name, uri, t, stamp, pick);
      ParseJson(host, name, uri, t, stamp, pick) == if g.Ok? then Ok(Some(g.value)) else Err(g.error)
    ensures t.httpMethod.Some? && Upper(t.httpMethod.value) == MethGet && t.params.None? ==>
      ParseJson(host, name, uri, t, stamp, pick) == Err(ValueError("GET case can't found params data"))
    ensures t.httpMethod.Some? && Upper(t.httpMethod.value) == MethPost ==>
      var p := PostCases(host, name, uri, t, stamp, pick);
      ParseJson(host, name, uri, t, stamp, pick) == if p.Ok? then Ok(Some(p.value)) else Err(p.error)
    ensures ParseJson(host, name, uri, t, stamp, pick).Ok? && ParseJson(host, name, uri, t, stamp, pick).value.Some? ==>
      forall c :: c in ParseJson(host, name, uri, t, stamp, pick).value.value ==> c.httpMethod == Upper(t.httpMethod.value)
  {
    if t.params.Some? {
      GetFlagCasesMethod(host, name, uri, t, stamp, pick, t.params.value, Flags);
    }
    if t.body.Some? {
      PostFlagCasesMethod(host, name, uri, t, stamp, pick, t.body.value, Flags);
    }
  }

  /** Template `{"method": "GET", "params": {}}`: one valid GET case with empty params. */
  lemma ScenarioGetWithoutParams(host: string, name: string, uri: string, stamp: string, pick: Picker)
    ensures var t := Template(Some("GET"), None, None, None, None, Some([]), None);
      ParseJson(host, name, uri, t, stamp, pick)
        == Ok(Some([RequestCase(name + "_true_" + stamp, host, uri, "GET", None, None, Some([]), None, true)]))
  {
    assert Upper("GET") == "GET";
    assert name + "_" + FlagName(true) + "_" + stamp == name + "_true_" + stamp;
  }

  /** The parameter spec `{"a": {"true": ["1"], "false": []}}`. */
  function OneValidValue(): ParamSpec {
    [("a", Pools(Some(["1"]), Some([])))]
  }

  /** Its `'true'` rows are `[{"a": "1"}]` and it has no `'false'` row, whatever the draws. */
  lemma OneValidValueRows(pick: Picker)
    ensures Combine(OneValidValue(), true, pick) == Ok([[("a", "1")]])
    ensures Combine(OneValidValue(), false, pick) == Ok([])
  {
    var spec := OneValidValue();
    var fpTrue: Dict<seq<Value>> := [("a", ["1"])];
    var fpFalse: Dict<seq<Value>> := [("a", [])];
    assert spec[1..] == [];
    assert spec[0].0 == "a";
    assert PoolOf(spec[0].1, true) == Some(["1"]);
    assert PoolOf(spec[0].1, false) == Some([]);
    assert FlagPools(spec[1..], true) == Ok([]);
    assert FlagPools(spec[1..], false) == Ok([]);
    assert [("a", ["1"])] + [] == fpTrue;
    assert [("a", [])] + [] == fpFalse;
    assert FlagPools(spec, true) == Ok(fpTrue);
    assert FlagPools(spec, false) == Ok(fpFalse);
    assert Fill(fpTrue, true, "a", 0, pick) == [] by {
      assert fpTrue[..0] == [];
    }
    assert Rows(fpTrue, true, pick) == [[("a", "1")]] by {
      assert RowAt(fpTrue, true, 0, 0, pick) == [("a", "1")];
      assert VaryRows(fpTrue, true, 0, pick) == [[("a", "1")]];
    }
    assert Rows(fpFalse, false, pick) == [] by {
      assert VaryRows(fpFalse, false, 0, pick) == [];
    }
    var row: Row := [("a", "1")];
    assert Dedup([row]) == [row] by {
      assert [row][..0] == [];
    }
  }

  /** Template `{"method": "post", "body": {"mode": "urlencoded", "data": {"a": {"true": ["1"],
      "false": []}}}}`: exactly one case, valid, with body content `a=1`; no invalid case. */
  lemma ScenarioUrlEncodedPost(host: string, name: string, uri: string, t: Template, stamp: string, pick: Picker)
    requires t.httpMethod == Some("post")
    requires t.body == Some(BodySpec(Some("urlencoded"), Some(OneValidValue())))
    ensures var r := ParseJson(host, name, uri, t, stamp, pick);
      && r.Ok? && r.value.Some? && |r.value.value| == 1
      && r.value.value[0].expectResult
      && r.value.value[0].httpMethod == "POST"
      && r.value.value[0].body == Some(UrlEncodedRequestBody([("a", "1")]))
      && r.value.value[0].body.value.Content() == Text("a=1")
  {
    OneValidValueRows(pick);
    assert Upper("post") == "POST";
    PostCasesShape(host, name, uri, t, stamp, pick);
    OneRowEncodes();
  }

  /** The url-encoded body over `{"a": "1"}` is the text `a=1`. */
  lemma OneRowEncodes()
    ensures UrlEncodedRequestBody([("a", "1")]).Content() == Text("a=1")
  {
    var row: Row := [("a", "1")];
    assert Pairs(row)[0] == "a=1";
    assert Pairs(row) == ["a=1"];
  }

  // ---------------------------------------------------------------------------------------------
  // parse_event_data

  /** One entry of a `prerequest` script file: its `type` and `exec` fields, `None` when absent. */
  datatype ScriptSpec = ScriptSpec(scriptType: Option<string>, exec: Option<seq<string>>)

  /** One hook per entry of the file, in order: the entry's key names the event, and its `type`
      and `exec` fields give the script; a missing field raises `KeyError`. */
  function Scripts(data: Dict<ScriptSpec>): (r: Result<seq<RequestPre>>)
    ensures r.Ok? <==> forall i :: 0 <= i < |data| ==> data[i].1.scriptType.Some? && data[i].1.exec.Some?
    ensures r.Err? ==> r.error == KeyError("type") || r.error == KeyError("exec")
    ensures r.Ok? ==> |r.value| == |data|
    ensures r.Ok? ==> forall i :: 0 <= i < |data| ==>
      r.value[i] == RequestPre(data[i].0, EventScript(data[i].1.exec.value, data[i].1.scriptType.value))
    decreases |data|
  {
    if |data| == 0 then Ok([])
    else
      var (k, v) := data[0];
      if v.scriptType.None? then Err(KeyError("type"))
      else if v.exec.None? then Err(KeyError("exec"))
      else
        var rest := Scripts(data[1..]);
        assert forall i :: 1 <= i < |data| ==> data[1..][i - 1] == data[i];
        if rest.Err? then rest
        else Ok([RequestPre(k, EventScript(v.exec.value, v.scriptType.value))] + rest.value)
  }

  /** `parse_event_data(uri, data)`: a script file must hold a `prerequest` or a `test` entry. */
  function ParseEventData(uri: string, data: Dict<ScriptSpec>): (r: Result<seq<RequestPre>>)
    ensures "prerequest" !in Keys(data) && "test" !in Keys(data) ==>
      r == Err(ValueError("can't found script flag in json file:" + uri))
    ensures r.Ok? <==>
      && ("prerequest" in Keys(data) || "test" in Keys(data))
      && forall i :: 0 <= i < |data| ==> data[i].1.scriptType.Some? && data[i].1.exec.Some?
    ensures r.Ok? ==> |r.value| == |data| && forall i :: 0 <= i < |data| ==> r.value[i].event == data[i].0
  {
    if "prerequest" !in Keys(data) && "test" !in Keys(data) then
      Err(ValueError("can't found script flag in json file:" + uri))
    else Scripts(data)
  }
}
