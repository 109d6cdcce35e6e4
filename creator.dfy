/** The Postman collection emitter: `PostmanCreator.create_case_events`, `create_events`,
    `create_body`, `create_request` and `create_apis`.

    Documents are built as `Json` values whose objects keep insertion order, as the emitted
    Python dicts do. Every list of `{key, value}` objects the emitter writes can be read back
    with `ReadFields`, which is the partner most round-trip lemmas below use. */
module Creator {
  import opened Wrappers
  import opened Dicts
  import opened Strings
  import opened Requests
  import opened Json

  const Schema := "https://schema.getpostman.com/json/collection/v2.1.0/collection.json"
  const ScriptType := "text/javascript"

  /** A list of strings as a JSON array. */
  function StrArr(ls: seq<string>): (r: Json)
    ensures r.JArr? && |r.items| == |ls|
    ensures forall i :: 0 <= i < |ls| ==> r.items[i] == JStr(ls[i])
  {
    JArr(seq(|ls|, i requires 0 <= i < |ls| => JStr(ls[i])))
  }

  /** Reads a JSON array of strings back. */
  function ReadStrings(items: seq<Json>): Option<seq<string>>
    decreases |items|
  {
    if |items| == 0 then Some([])
    else if !items[0].JStr? then None
    else
      match ReadStrings(items[1..])
      case None => None
      case Some(rest) => Some([items[0].s] + rest)
  }

  lemma {:induction false} ReadStrArr(ls: seq<string>)
    ensures ReadStrings(StrArr(ls).items) == Some(ls)
    decreases |ls|
  {
    if |ls| > 0 {
      ReadStrArr(ls[1..]);
      assert StrArr(ls).items[1..] == StrArr(ls[1..]).items;
      assert [ls[0]] + ls[1..] == ls;
    }
  }

  /** Reads a list of `{key, value}` objects (other fields ignored) back into a dict; `None`
      when an element lacks a string `key` or `value`. */
  function ReadFields(items: seq<Json>): Option<Dict<Value>>
    decreases |items|
  {
    if |items| == 0 then Some([])
    else
      var kv := ReadField(items[0]);
      var rest := ReadFields(items[1..]);
      if kv.Some? && rest.Some? then Some([kv.value] + rest.value) else None
  }

  /** A list whose every element reads back as the matching field reads back as the dict. */
  lemma {:induction false} ReadFieldsEach(items: seq<Json>, d: Dict<Value>)
    requires |items| == |d|
    requires forall i :: 0 <= i < |d| ==> ReadField(items[i]) == Some(d[i])
    ensures ReadFields(items) == Some(d)
    decreases |d|
  {
    if |d| > 0 {
      HeadTail(d);
      TailFields(items, d);
      ReadFieldsEach(items[1..], d[1..]);
    }
  }

  lemma TailFields(items: seq<Json>, d: Dict<Value>)
    requires 0 < |items| == |d|
    requires forall i :: 0 <= i < |d| ==> ReadField(items[i]) == Some(d[i])
    ensures forall i :: 0 <= i < |d| - 1 ==> ReadField(items[1..][i]) == Some(d[1..][i])
  {
    assert forall i :: 0 <= i < |d| - 1 ==> items[1..][i] == items[i + 1] && d[1..][i] == d[i + 1];
  }

  /** The string `key` and `value` of one `{key, value}` object. */
  function ReadField(j: Json): Option<(string, Value)> {
    match (Field(j, "key"), Field(j, "value"))
    case (Some(JStr(k)), Some(JStr(v))) => Some((k, v))
    case _ => None
  }

  // ---------------------------------------------------------------------------------------------
  // create_case_events

  const ExpectPrefix := "    pm.expect(jsonData.code).to.eql("

  function ExpectLine(code: string): string {
    ExpectPrefix + code + ");"
  }

  /** `create_case_events(case)`: one `test` script asserting the response code, `1` for a case
      expected to succeed and `0` for one expected to fail. */
  function CaseEvents(c: RequestCase): (r: seq<Json>)
    ensures |r| == 1 && Field(r[0], "listen") == Some(JStr("test"))
  {
    [JObj([("listen", JStr("test")),
           ("script", JObj([("exec", StrArr(["pm.test(\"返回处理码为 1\", function () {",
                                             "    var jsonData = pm.response.json();",
                                             ExpectLine(if c.expectResult then "1" else "0"),
                                             "});"])),
                            ("type", JStr(ScriptType))]))])]
  }

  /** The test script depends on the case only through `expect_result`, and tells the two
      polarities apart: its `exec` lines read back with the third one expecting code `1` for a
      case expected to succeed and `0` otherwise. */
  lemma CaseEventsDecided(a: RequestCase, b: RequestCase)
    ensures CaseEvents(a) == CaseEvents(b) <==> a.expectResult == b.expectResult
    ensures var script := Field(CaseEvents(a)[0], "script");
      && script.Some?
      && Field(script.value, "exec").Some? && Field(script.value, "exec").value.JArr?
      && var lines := ReadStrings(Field(script.value, "exec").value.items);
         lines.Some? && |lines.value| == 4 && lines.value[2] == ExpectLine(if a.expectResult then "1" else "0")
  {
    var ls := ["pm.test(\"返回处理码为 1\", function () {",
               "    var jsonData = pm.response.json();",
               ExpectLine(if a.expectResult then "1" else "0"),
               "});"];
    var script := JObj([("exec", StrArr(ls)), ("type", JStr(ScriptType))]);
    Get2("listen", JStr("test"), "script", script);
    Get2("exec", StrArr(ls), "type", JStr(ScriptType));
    ReadStrArr(ls);
    var n := |ExpectPrefix|;
    assert ExpectLine("1")[n] == '1';
    assert ExpectLine("0")[n] == '0';
    if a.expectResult != b.expectResult {
      var la := ExpectLine(if a.expectResult then "1" else "0");
      var lb := ExpectLine(if b.expectResult then "1" else "0");
      assert la[n] != lb[n];
      var ea := CaseEvents(a)[0].fields[1].1.fields[0].1.items[2];
      var eb := CaseEvents(b)[0].fields[1].1.fields[0].1.items[2];
      assert ea == JStr(la) && eb == JStr(lb);
    }
  }

  // ---------------------------------------------------------------------------------------------
  // create_events

  function DefaultEvent(listen: string): Json {
    JObj([("listen", JStr(listen)), ("script", JObj([("type", JStr(ScriptType)), ("exec", StrArr([""]))]))])
  }

  function PreEvent(p: RequestPre): Json {
    JObj([("listen", JStr(p.event)),
          ("script", JObj([("type", JStr(p.script.scriptType)), ("exec", StrArr(p.script.lines))]))])
  }

  /** `create_events(prerequests)`: the two empty default hooks when there is no list, else one
      entry per hook in order. */
  function CreateEvents(pres: Option<seq<RequestPre>>): (r: seq<Json>)
    ensures pres.None? ==> |r| == 2
    ensures pres.Some? ==> |r| == |pres.value|
  {
    if pres.None? then [DefaultEvent("prerequest"), DefaultEvent("test")]
    else seq(|pres.value|, i requires 0 <= i < |pres.value| => PreEvent(pres.value[i]))
  }

  /** Reads a `{listen, script: {type, exec}}` entry back into a hook. */
  function ReadEvent(j: Json): Option<RequestPre> {
    match (Field(j, "listen"), Field(j, "script"))
    case (Some(JStr(l)), Some(sc)) =>
      (match (Field(sc, "type"), Field(sc, "exec"))
       case (Some(JStr(ty)), Some(JArr(xs))) =>
         (match ReadStrings(xs)
          case Some(ls) => Some(RequestPre(l, EventScript(ls, ty)))
          case None => None)
       case _ => None)
    case _ => None
  }

  /** Every entry written for a hook list reads back as that hook; the defaults read back as
      `prerequest` then `test`, each an empty `text/javascript` script. */
  lemma CreateEventsReadBack(pres: Option<seq<RequestPre>>)
    ensures pres.Some? ==> forall i :: 0 <= i < |pres.value| ==>
      ReadEvent(CreateEvents(pres)[i]) == Some(pres.value[i])
    ensures pres.None? ==>
      && ReadEvent(CreateEvents(pres)[0]) == Some(RequestPre("prerequest", EventScript([""], ScriptType)))
      && ReadEvent(CreateEvents(pres)[1]) == Some(RequestPre("test", EventScript([""], ScriptType)))
  {
    if pres.Some? {
      forall i | 0 <= i < |pres.value|
        ensures ReadEvent(CreateEvents(pres)[i]) == Some(pres.value[i])
      {
        var p := pres.value[i];
        ReadStrArr(p.script.lines);
        Get2("type", JStr(p.script.scriptType), "exec", StrArr(p.script.lines));
        Get2("listen", JStr(p.event), "script", JObj([("type", JStr(p.script.scriptType)), ("exec", StrArr(p.script.lines))]));
      }
    } else {
      ReadStrArr([""]);
      Get2("type", JStr(ScriptType), "exec", StrArr([""]));
      var sc := JObj([("type", JStr(ScriptType)), ("exec", StrArr([""]))]);
      Get2("listen", JStr("prerequest"), "script", sc);
      Get2("listen", JStr("test"), "script", sc);
    }
  }

  // ---------------------------------------------------------------------------------------------
  // create_body

  /** `{'key': k, 'type': 'text', 'value': v}` for each field of a form body. */
  function FormItems(d: Dict<Value>): (r: seq<Json>)
    ensures |r| == |d|
  {
    seq(|d|, i requires 0 <= i < |d| => JObj([("key", JStr(d[i].0)), ("type", JStr("text")), ("value", JStr(d[i].1))]))
  }

  /** The item for one `&`-piece of a url-encoded body: key and value when the piece splits on
      `=` into one or two parts, only the `type` otherwise. */
  function UrlItem(piece: string): Json {
    var vs := Split(piece, '=');
    if |vs| == 1 then JObj([("type", JStr("text")), ("key", JStr(vs[0])), ("value", JStr(""))])
    else if |vs| == 2 then JObj([("type", JStr("text")), ("key", JStr(vs[0])), ("value", JStr(vs[1]))])
    else JObj([("type", JStr("text"))])
  }

  function UrlItems(content: string): (r: seq<Json>)
    ensures |r| == |Split(content, '&')|
  {
    UrlItemsOf(Split(content, '&'))
  }

  /** One item per `&`-piece. */
  function UrlItemsOf(pieces: seq<string>): (r: seq<Json>)
    ensures |r| == |pieces|
  {
    seq(|pieces|, i requires 0 <= i < |pieces| => UrlItem(pieces[i]))
  }

  /** `create_body(body)`. A form body holding a `files` field fails: its value is a string,
      which has no `items()`. */
  function BodyJson(b: RequestBody): Result<Json> {
    match b.Content()
    case Fields(d) =>
      if "files" in Keys(d) then Err(AttributeError("items")) else Ok(JArr(FormItems(d)))
    case Text(t) =>
      if b.Mode() == Raw then Ok(JStr(t)) else Ok(JArr(UrlItems(t)))
  }

  /** `create_body`, with the loop over the `&`-pieces the source runs. */
  method CreateBody(b: RequestBody) returns (r: Result<Json>)
    ensures r == BodyJson(b)
  {
    if b.FormDataRequestBody? {
      if "files" in Keys(b.data) {
        return Err(AttributeError("items"));
      }
      return Ok(JArr(FormItems(b.data)));
    } else if b.RawRequestBody? {
      return Ok(JStr(Dumps(b.data)));
    }
    var items := EncodePieces(Split(UrlEncode(b.data), '&'));
    return Ok(JArr(items));
  }

  /** The url-encoded branch's loop: one item per `&`-piece. */
  method EncodePieces(pieces: seq<string>) returns (items: seq<Json>)
    ensures items == UrlItemsOf(pieces)
  {
    items := [];
    for i := 0 to |pieces|
      invariant items == UrlItemsOf(pieces)[..i]
    {
      var item := EncodePiece(pieces[i]);
      assert UrlItemsOf(pieces)[..i + 1] == UrlItemsOf(pieces)[..i] + [UrlItem(pieces[i])];
      items := items + [item];
    }
    assert UrlItemsOf(pieces)[..|pieces|] == UrlItemsOf(pieces);
  }

  /** One piece's item: `type` first, then `key` and `value` when the piece splits on `=` into
      one or two parts. */
  method EncodePiece(piece: string) returns (j: Json)
    ensures j == UrlItem(piece)
  {
    var item: Dict<Json> := [("type", JStr("text"))];
    var vs := Split(piece, '=');
    if |vs| == 1 || |vs| == 2 {
      var value := if |vs| == 1 then "" else vs[1];
      TypeKeyValue(JStr(vs[0]), JStr(value));
      item := Put(item, "key", JStr(vs[0]));
      item := Put(item, "value", JStr(value));
    }
    return JObj(item);
  }

  /** `item = {'type': 'text'}; item.update({'key': k, 'value': v})` gives the three entries in
      that order. */
  lemma TypeKeyValue(k: Json, v: Json)
    ensures Put(Put([("type", JStr("text"))], "key", k), "value", v)
         == [("type", JStr("text")), ("key", k), ("value", v)]
  {
    var item: Dict<Json> := [("type", JStr("text"))];
    assert Keys(item) == ["type"];
    PutAppends(item, "key", k);
    var item2 := item + [("key", k)];
    assert Keys(item2) == ["type", "key"];
    PutAppends(item2, "value", v);
  }

  /** A form body without a `files` field reads back as its own fields, in order. */
  lemma FormItemsReadBack(d: Dict<Value>)
    ensures ReadFields(FormItems(d)) == Some(d)
    ensures forall i :: 0 <= i < |d| ==> Field(FormItems(d)[i], "type") == Some(JStr("text"))
  {
    forall i | 0 <= i < |d|
      ensures ReadField(FormItems(d)[i]) == Some(d[i])
      ensures Field(FormItems(d)[i], "type") == Some(JStr("text"))
    {
      Get3("key", JStr(d[i].0), "type", JStr("text"), "value", JStr(d[i].1));
    }
    ReadFieldsEach(FormItems(d), d);
  }

  /** Neither url-encoding separator. */
  predicate Plain(s: string) {
    '&' !in s && '=' !in s
  }

  /** The item of a plain `k=v` piece reads back as the field `(k, v)`. */
  lemma PairItem(k: string, v: Value)
    requires Plain(k) && Plain(v)
    ensures ReadField(UrlItem(Pair(k, v))) == Some((k, v))
  {
    SplitAfterPiece(k, '=', v);
    SplitNoSep(v, '=');
    assert Pair(k, v) == k + ['='] + v;
    Get3("type", JStr("text"), "key", JStr(k), "value", JStr(v));
  }

  lemma PairItemsReadBack(d: Dict<Value>)
    requires forall i :: 0 <= i < |d| ==> Plain(d[i].0) && Plain(d[i].1)
    ensures ReadFields(UrlItemsOf(Pairs(d))) == Some(d)
  {
    forall i | 0 <= i < |d|
      ensures ReadField(UrlItemsOf(Pairs(d))[i]) == Some(d[i])
    {
      PairItem(d[i].0, d[i].1);
    }
    ReadFieldsEach(UrlItemsOf(Pairs(d)), d);
  }

  /** The url-encoded round trip: a non-empty body whose keys and values hold neither `&` nor
      `=` gives one `{key, value}` item per field, reading back as the body's data. */
  lemma UrlEncodedReadBack(d: Dict<Value>)
    requires |d| >= 1
    requires forall i :: 0 <= i < |d| ==> Plain(d[i].0) && Plain(d[i].1)
    ensures BodyJson(UrlEncodedRequestBody(d)).Ok?
    ensures BodyJson(UrlEncodedRequestBody(d)).value.JArr?
    ensures ReadFields(BodyJson(UrlEncodedRequestBody(d)).value.items) == Some(d)
  {
    forall p | p in Pairs(d)
      ensures '&' !in p
    {
      var i :| 0 <= i < |d| && Pairs(d)[i] == p;
      assert p == d[i].0 + "=" + d[i].1;
    }
    SplitJoin(Pairs(d), '&');
    assert Split(UrlEncode(d), '&') == Pairs(d);
    PairItemsReadBack(d);
  }

  /** An empty url-encoded body still gives one item, with empty key and value. */
  lemma UrlEncodedEmpty()
    ensures BodyJson(UrlEncodedRequestBody([])) == Ok(JArr([JObj([("type", JStr("text")), ("key", JStr("")), ("value", JStr(""))])]))
  {
    assert Pairs([]) == [];
    assert UrlEncode([]) == "";
    assert Split("", '&') == [""];
    assert Split("", '=') == [""];
    assert UrlItems("") == [UrlItem("")];
  }

  /** A value holding `=` splits its piece into three parts, and the item keeps only its
      `type`: the field cannot be read back. */
  lemma UrlEncodedValueWithEquals()
    ensures BodyJson(UrlEncodedRequestBody([("a", "b=c")])) == Ok(JArr([JObj([("type", JStr("text"))])]))
    ensures ReadFields(BodyJson(UrlEncodedRequestBody([("a", "b=c")])).value.items) == None
  {
    var d: Dict<Value> := [("a", "b=c")];
    assert Pairs(d)[0] == "a=b=c";
    assert Pairs(d) == ["a=b=c"];
    assert UrlEncode(d) == "a=b=c";
    SplitNoSep("a=b=c", '&');
    SplitAfterPiece("a", '=', "b=c");
    SplitAfterPiece("b", '=', "c");
    SplitNoSep("c", '=');
    assert "a" + ['='] + "b=c" == "a=b=c";
    assert "b" + ['='] + "c" == "b=c";
    assert |Split("a=b=c", '=')| == 3;
    assert UrlItems("a=b=c") == [UrlItem("a=b=c")];
    var item := JObj([("type", JStr("text"))]);
    assert "key" !in Keys(item.fields);
    assert ReadField(item) == None;
  }

  // ---------------------------------------------------------------------------------------------
  // create_request

  /** `[{'key': k, 'value': v} for k, v in d.items()]`. */
  function KeyValues(d: Dict<Value>): (r: seq<Json>)
    ensures |r| == |d|
  {
    seq(|d|, i requires 0 <= i < |d| => JObj([("key", JStr(d[i].0)), ("value", JStr(d[i].1))]))
  }

  lemma KeyValuesReadBack(d: Dict<Value>)
    ensures ReadFields(KeyValues(d)) == Some(d)
  {
    forall i | 0 <= i < |d|
      ensures ReadField(KeyValues(d)[i]) == Some(d[i])
    {
      Get2("key", JStr(d[i].0), "value", JStr(d[i].1));
    }
    ReadFieldsEach(KeyValues(d), d);
  }

  lemma KeyValuesAppend(a: Dict<Value>, b: Dict<Value>)
    ensures KeyValues(a) + KeyValues(b) == KeyValues(a + b)
  {
  }

  /** `url.raw`: host and uri, then `?` and the `&`-joined query pairs when there is a query. */
  function RawUrl(c: RequestCase): string {
    if c.query.Some? then c.host + c.uri + "?" + UrlEncode(c.query.value) else c.host + c.uri
  }

  /** `[p for p in uri.split('/') if p]`. */
  function PathOf(uri: string): seq<string> {
    DropEmpty(Split(uri, '/'))
  }

  /** The `url` object before the query step: `raw`, `host`, `path`. */
  function BaseUrl(c: RequestCase): Dict<Json> {
    [("raw", JStr(RawUrl(c))), ("host", JStr(c.host)), ("path", StrArr(PathOf(c.uri)))]
  }

  /** The `query` step: the query's pairs are stored; then, when there are `params`, they are
      appended to the stored list if `probe` is a key of the url object, else they replace it. */
  function QueryStep(c: RequestCase, base: Dict<Json>, probe: string): Result<Dict<Json>> {
    var url1 := if c.query.Some? then Put(base, "query", JArr(KeyValues(c.query.value))) else base;
    if c.params.None? then Ok(url1) else ParamsStep(url1, probe, KeyValues(c.params.value))
  }

  /** The params step on a url object: when `probe` is one of its keys, the params' pairs
      extend the stored `query` list (a missing list raises `KeyError`); otherwise they
      become the `query` list. */
  function ParamsStep(url: Dict<Json>, probe: string, values: seq<Json>): Result<Dict<Json>> {
    if probe in Keys(url) then
      var stored: Option<Json> := Get(url, "query");
      match stored
      case Some(JArr(xs)) => Ok(Put(url, "query", JArr(xs + values)))
      case _ => Err(KeyError("query"))
    else Ok(Put(url, "query", JArr(values)))
  }

  /** The params step in place on the url dict. */
  method AddParams(url: Dict<Json>, probe: string, values: seq<Json>) returns (r: Result<Dict<Json>>)
    ensures r == ParamsStep(url, probe, values)
  {
    if probe in Keys(url) {
      var stored := Get(url, "query");
      if stored.Some? && stored.value.JArr? {
        return Ok(Put(url, "query", JArr(stored.value.items + values)));
      }
      return Err(KeyError("query"));
    }
    return Ok(Put(url, "query", JArr(values)));
  }

  /** `create_request(case)` with the key that guards the append of the params. The emitted
      object holds `auth`, `method`, `header`, `url` and, when the case has one, `body`.
      Iterating `headers` when it is absent fails. */
  function RequestDoc(c: RequestCase, probe: string): Result<Json> {
    if c.headers.None? then Err(AttributeError("items"))
    else
      var body :- if c.body.None? then Ok(None) else
        var bj :- BodyJson(c.body.value);
        Ok(Some(BodyObject(c.body.value.Mode().Value(), bj)));
      var url :- QueryStep(c, BaseUrl(c), probe);
      Ok(JObj(RequestObject(c.httpMethod, c.headers.value, url, body)))
  }

  /** `{'mode': m, m: content}`. */
  function BodyObject(m: string, content: Json): Json {
    JObj([("mode", JStr(m)), (m, content)])
  }

  /** The request object: `auth`, `method`, `header`, `url`, then `body` when there is one. */
  function RequestObject(httpMethod: string, headers: Dict<Value>, url: Dict<Json>, body: Option<Json>): Dict<Json> {
    var doc := BaseRequest(httpMethod, headers, url);
    if body.Some? then doc + [("body", body.value)] else doc
  }

  function BaseRequest(httpMethod: string, headers: Dict<Value>, url: Dict<Json>): Dict<Json> {
    [("auth", JObj([("type", JStr("noauth"))])),
     ("method", JStr(httpMethod)),
     ("header", JArr(KeyValues(headers))),
     ("url", JObj(url))]
  }

  lemma BaseRequestFields(httpMethod: string, headers: Dict<Value>, url: Dict<Json>)
    ensures var d := BaseRequest(httpMethod, headers, url);
      && Get(d, "method") == Some(JStr(httpMethod))
      && Get(d, "header") == Some(JArr(KeyValues(headers)))
      && Get(d, "url") == Some(JObj(url))
      && "body" !in Keys(d)
  {
    var d := BaseRequest(httpMethod, headers, url);
    Get4("auth", JObj([("type", JStr("noauth"))]), "method", JStr(httpMethod),
         "header", JArr(KeyValues(headers)), "url", JObj(url));
    assert forall i :: 0 <= i < |d| ==> Keys(d)[i] != "body";
  }

  lemma RequestObjectFields(httpMethod: string, headers: Dict<Value>, url: Dict<Json>, body: Option<Json>)
    ensures var d := RequestObject(httpMethod, headers, url, body);
      && Get(d, "method") == Some(JStr(httpMethod))
      && Get(d, "header") == Some(JArr(KeyValues(headers)))
      && Get(d, "url") == Some(JObj(url))
      && Get(d, "body") == body
  {
    var doc := BaseRequest(httpMethod, headers, url);
    BaseRequestFields(httpMethod, headers, url);
    if body.Some? {
      PutAppends(doc, "body", body.value);
      PutGet(doc, "body", body.value, "method");
      PutGet(doc, "body", body.value, "header");
      PutGet(doc, "body", body.value, "url");
      PutGet(doc, "body", body.value, "body");
    }
  }

  /** `create_request` as written: the guard tests for a `params` key. */
  function RequestDocAsWritten(c: RequestCase): Result<Json> {
    RequestDoc(c, "params")
  }

  /** `create_request` with the guard testing for the `query` key it then extends. */
  function RequestDocCorrected(c: RequestCase): Result<Json> {
    RequestDoc(c, "query")
  }

  /** The url object never has a `params` key, so the guard as written never holds. */
  lemma ParamsProbeNeverHolds(c: RequestCase)
    ensures var url1 := if c.query.Some? then Put(BaseUrl(c), "query", JArr(KeyValues(c.query.value))) else BaseUrl(c);
      "params" !in Keys(url1)
  {
  }

  /** Where the parts of the request object sit, for any guard key. */
  lemma RequestDocFields(c: RequestCase, probe: string)
    ensures RequestDoc(c, probe).Err? <==>
      c.headers.None? || (c.body.Some? && BodyJson(c.body.value).Err?) || QueryStep(c, BaseUrl(c), probe).Err?
    ensures RequestDoc(c, probe).Ok? ==>
      var doc := RequestDoc(c, probe).value;
      && Field(doc, "method") == Some(JStr(c.httpMethod))
      && Field(doc, "header") == Some(JArr(KeyValues(c.headers.value)))
      && Field(doc, "url") == Some(JObj(QueryStep(c, BaseUrl(c), probe).value))
      && (Field(doc, "body").Some? <==> c.body.Some?)
      && (c.body.Some? ==>
            Field(Field(doc, "body").value, c.body.value.Mode().Value()) == Some(BodyJson(c.body.value).value))
  {
    if RequestDoc(c, probe).Ok? {
      var url := QueryStep(c, BaseUrl(c), probe).value;
      var body := if c.body.Some? then Some(BodyObject(c.body.value.Mode().Value(), BodyJson(c.body.value).value)) else None;
      assert RequestDoc(c, probe).value == JObj(RequestObject(c.httpMethod, c.headers.value, url, body));
      RequestObjectFields(c.httpMethod, c.headers.value, url, body);
      if c.body.Some? {
        var m := c.body.value.Mode().Value();
        Get2("mode", JStr(m), m, BodyJson(c.body.value).value);
      }
    }
  }

  /** The `query` list the url object ends with, for the guard as written (`params`) and the
      corrected one (`query`). */
  function QueryList(c: RequestCase, probe: string): seq<Json> {
    var qs := if c.query.Some? then c.query.value else [];
    var ps := if c.params.Some? then c.params.value else [];
    if probe == "query" then KeyValues(qs + ps)
    else if c.params.Some? then KeyValues(ps)
    else KeyValues(qs)
  }

  /** The query step appends one `query` entry to `raw`, `host`, `path` exactly when there is a
      query or params; its list is the params' pairs alone as written, and the query's then the
      params' with the corrected guard. */
  lemma QueryStepShape(c: RequestCase, base: Dict<Json>, probe: string)
    requires probe == "query" || probe == "params"
    requires "query" !in Keys(base) && "params" !in Keys(base)
    ensures QueryStep(c, base, probe)
      == Ok(if c.query.None? && c.params.None? then base
            else base + [("query", JArr(QueryList(c, probe)))])
  {
    if c.params.None? {
      QueryStepNoParams(c, base, probe);
      if c.query.Some? {
        assert c.query.value + [] == c.query.value;
      }
    } else if c.query.None? {
      QueryStepOnlyParams(c, base, probe);
      assert [] + c.params.value == c.params.value;
    } else {
      QueryStepBoth(c, base, probe);
      KeyValuesAppend(c.query.value, c.params.value);
    }
  }

  lemma QueryStepNoParams(c: RequestCase, base: Dict<Json>, probe: string)
    requires c.params.None?
    requires "query" !in Keys(base)
    ensures QueryStep(c, base, probe)
      == Ok(if c.query.Some? then base + [("query", JArr(KeyValues(c.query.value)))] else base)
  {
    if c.query.Some? {
      PutAppends(base, "query", JArr(KeyValues(c.query.value)));
    }
  }

  lemma QueryStepOnlyParams(c: RequestCase, base: Dict<Json>, probe: string)
    requires c.query.None? && c.params.Some?
    requires "query" !in Keys(base) && probe !in Keys(base)
    ensures QueryStep(c, base, probe) == Ok(base + [("query", JArr(KeyValues(c.params.value)))])
  {
    PutAppends(base, "query", JArr(KeyValues(c.params.value)));
  }

  lemma QueryStepBoth(c: RequestCase, base: Dict<Json>, probe: string)
    requires c.query.Some? && c.params.Some?
    requires probe == "query" || probe == "params"
    requires "query" !in Keys(base) && "params" !in Keys(base)
    ensures QueryStep(c, base, probe) == Ok(base + [("query", JArr(
      if probe == "query" then KeyValues(c.query.value) + KeyValues(c.params.value)
      else KeyValues(c.params.value)))])
  {
    var qs := KeyValues(c.query.value);
    var ps := KeyValues(c.params.value);
    PutAppends(base, "query", JArr(qs));
    var url1 := base + [("query", JArr(qs))];
    assert Keys(url1) == Keys(base) + ["query"];
    assert QueryStep(c, base, probe) == ParamsStep(url1, probe, ps);
    if probe == "query" {
      GetLast(base, "query", JArr(qs));
      PutReplacesLast(base, "query", JArr(qs), JArr(qs + ps));
    } else {
      PutReplacesLast(base, "query", JArr(qs), JArr(ps));
    }
  }

  /** Reading the url object back: `raw` and `path` as stored, and the `query` list if any. */
  lemma UrlParts(c: RequestCase, q: seq<Json>)
    ensures Get(BaseUrl(c), "raw") == Some(JStr(RawUrl(c)))
    ensures Get(BaseUrl(c), "path") == Some(StrArr(PathOf(c.uri)))
    ensures Get(BaseUrl(c), "query") == None
    ensures Get(BaseUrl(c) + [("query", JArr(q))], "raw") == Some(JStr(RawUrl(c)))
    ensures Get(BaseUrl(c) + [("query", JArr(q))], "path") == Some(StrArr(PathOf(c.uri)))
    ensures Get(BaseUrl(c) + [("query", JArr(q))], "query") == Some(JArr(q))
  {
    var base := BaseUrl(c);
    Get3("raw", JStr(RawUrl(c)), "host", JStr(c.host), "path", StrArr(PathOf(c.uri)));
    assert Keys(base) == ["raw", "host", "path"];
    PutAppends(base, "query", JArr(q));
    PutGet(base, "query", JArr(q), "raw");
    PutGet(base, "query", JArr(q), "path");
    PutGet(base, "query", JArr(q), "query");
  }

  /** Any case with query `{q: 1}` and params `{p: 2}`: as written, the url's `query` list reads
      back as the params alone and the query's pair `q=1` is lost; with the corrected guard it
      reads back as both. */
  lemma QueryLostAsWritten(c: RequestCase)
    requires c.query == Some([("q", "1")]) && c.params == Some([("p", "2")])
    ensures QueryStep(c, BaseUrl(c), "params").Ok? && QueryStep(c, BaseUrl(c), "query").Ok?
    ensures var url := QueryStep(c, BaseUrl(c), "params").value;
      && Get(url, "query").Some? && Get(url, "query").value.JArr?
      && ReadFields(Get(url, "query").value.items) == Some([("p", "2")])
    ensures var url := QueryStep(c, BaseUrl(c), "query").value;
      && Get(url, "query").Some? && Get(url, "query").value.JArr?
      && ReadFields(Get(url, "query").value.items) == Some([("q", "1"), ("p", "2")])
  {
    var written := QueryList(c, "params");
    var corrected := QueryList(c, "query");
    assert written == KeyValues([("p", "2")]);
    assert [("q", "1")] + [("p", "2")] == [("q", "1"), ("p", "2")];
    assert corrected == KeyValues([("q", "1"), ("p", "2")]);
    QueryStepShape(c, BaseUrl(c), "params");
    QueryStepShape(c, BaseUrl(c), "query");
    UrlParts(c, written);
    UrlParts(c, corrected);
    KeyValuesReadBack([("p", "2")]);
    KeyValuesReadBack([("q", "1"), ("p", "2")]);
  }

  /** With either guard, `create_request` fails exactly when the headers are absent or the body
      fails: the query step itself never raises. */
  lemma RequestDocOk(c: RequestCase, probe: string)
    requires probe == "query" || probe == "params"
    ensures RequestDoc(c, probe).Ok? <==> CaseOk(c)
  {
    RequestDocFields(c, probe);
    QueryStepShape(c, BaseUrl(c), probe);
  }

  /** What `create_request` emits as written: it fails exactly when the headers are absent or
      the body fails; otherwise the method is the case's, the headers read back as the case's,
      `body` is present iff the case has one (under its mode's name), and the url's `query` list
      reads back as the params' pairs when there are params, else as the query's. */
  lemma RequestDocAsWrittenShape(c: RequestCase)
    ensures RequestDocAsWritten(c).Err? <==>
      c.headers.None? || (c.body.Some? && BodyJson(c.body.value).Err?)
    ensures RequestDocAsWritten(c).Ok? ==>
      var doc := RequestDocAsWritten(c).value;
      && Field(doc, "method") == Some(JStr(c.httpMethod))
      && Field(doc, "header").Some? && Field(doc, "header").value.JArr?
      && ReadFields(Field(doc, "header").value.items) == c.headers
      && (Field(doc, "body").Some? <==> c.body.Some?)
      && (c.body.Some? ==>
            Field(Field(doc, "body").value, c.body.value.Mode().Value()) == Some(BodyJson(c.body.value).value))
      && Field(doc, "url").Some?
      && Field(Field(doc, "url").value, "raw") == Some(JStr(RawUrl(c)))
      && Field(Field(doc, "url").value, "path") == Some(StrArr(PathOf(c.uri)))
      && (Field(Field(doc, "url").value, "query").Some? <==> c.query.Some? || c.params.Some?)
      && (c.query.Some? || c.params.Some? ==>
            && Field(Field(doc, "url").value, "query").value.JArr?
            && ReadFields(Field(Field(doc, "url").value, "query").value.items)
                 == Some(if c.params.Some? then c.params.value else c.query.value))
  {
    RequestDocFields(c, "params");
    QueryStepShape(c, BaseUrl(c), "params");
    UrlParts(c, QueryList(c, "params"));
    if c.headers.Some? {
      KeyValuesReadBack(c.headers.value);
    }
    if c.params.Some? {
      KeyValuesReadBack(c.params.value);
    } else if c.query.Some? {
      KeyValuesReadBack(c.query.value);
    }
  }

  /** What `create_request` is meant to emit, proved of the corrected guard: it fails exactly
      when the headers are absent or the body fails; otherwise the method is the case's, the
      headers read back as the case's, `body` is present iff the case has one (under its mode's
      name), and the url's `query` list reads back as the query's pairs followed by the params'. */
  lemma RequestDocCorrectedShape(c: RequestCase)
    ensures RequestDocCorrected(c).Err? <==>
      c.headers.None? || (c.body.Some? && BodyJson(c.body.value).Err?)
    ensures RequestDocCorrected(c).Ok? ==>
      var doc := RequestDocCorrected(c).value;
      && Field(doc, "method") == Some(JStr(c.httpMethod))
      && Field(doc, "header").Some? && Field(doc, "header").value.JArr?
      && ReadFields(Field(doc, "header").value.items) == c.headers
      && (Field(doc, "body").Some? <==> c.body.Some?)
      && (c.body.Some? ==>
            Field(Field(doc, "body").value, c.body.value.Mode().Value()) == Some(BodyJson(c.body.value).value))
      && Field(doc, "url").Some?
      && Field(Field(doc, "url").value, "raw") == Some(JStr(RawUrl(c)))
      && Field(Field(doc, "url").value, "path") == Some(StrArr(PathOf(c.uri)))
      && (Field(Field(doc, "url").value, "query").Some? <==> c.query.Some? || c.params.Some?)
      && (c.query.Some? || c.params.Some? ==>
            && Field(Field(doc, "url").value, "query").value.JArr?
            && ReadFields(Field(Field(doc, "url").value, "query").value.items)
                 == Some((if c.query.Some? then c.query.value else []) + (if c.params.Some? then c.params.value else [])))
  {
    RequestDocFields(c, "query");
    QueryStepShape(c, BaseUrl(c), "query");
    UrlParts(c, QueryList(c, "query"));
    if c.headers.Some? {
      KeyValuesReadBack(c.headers.value);
    }
    KeyValuesReadBack((if c.query.Some? then c.query.value else []) + (if c.params.Some? then c.params.value else []));
  }

  /** `create_request`: the body, then the query and params steps on the url object. The
      params are appended to the stored list only if the url object has a `params` key. */
  method CreateRequest(c: RequestCase) returns (r: Result<Json>)
    ensures r == RequestDocAsWritten(c)
  {
    if c.headers.None? {
      return Err(AttributeError("items"));
    }
    var url := BaseUrl(c);
    var body: Option<Json> := None;
    if c.body.Some? {
      var bj := CreateBody(c.body.value);
      if bj.Err? {
        return Err(bj.error);
      }
      body := Some(BodyObject(c.body.value.Mode().Value(), bj.value));
    }
    if c.query.Some? {
      url := Put(url, "query", JArr(KeyValues(c.query.value)));
    }
    if c.params.Some? {
      var step := AddParams(url, "params", KeyValues(c.params.value));
      if step.Err? {
        return Err(step.error);
      }
      url := step.value;
    }
    // The source inserts the url dict first and updates it afterwards; the dict is shared, so the
    // object is assembled here once the url is final.
    return Ok(JObj(RequestObject(c.httpMethod, c.headers.value, url, body)));
  }

  // ---------------------------------------------------------------------------------------------
  // create_apis

  /** What a `groups` entry holds: the hook list under `prerequest`, the cases of a folder, or
      `None` (what the parser returns for a case file whose method is neither GET nor POST). */
  datatype GroupEntry = Events(pres: seq<RequestPre>) | Cases(cases: seq<RequestCase>) | NoCases

  /** The events of the collection: the defaults without a `prerequest` entry, else that entry's
      hooks. A non-empty list of cases there fails, as a case has no `event`. */
  function PrerequestEvents(entries: Dict<GroupEntry>): Result<seq<Json>> {
    var pre: Option<GroupEntry> := Get(entries, "prerequest");
    match pre
    case None => Ok(CreateEvents(None))
    case Some(NoCases) => Ok(CreateEvents(None))
    case Some(Events(ps)) => Ok(CreateEvents(Some(ps)))
    case Some(Cases(cs)) => if |cs| == 0 then Ok(CreateEvents(Some([]))) else Err(AttributeError("event"))
  }

  /** `groups` after the events step: `prerequest` is deleted once its hooks are read; an
      entry holding `None` reads as absent and is kept. */
  function AfterEvents(entries: Dict<GroupEntry>): (r: Dict<GroupEntry>)
    ensures PrerequestEvents(entries).Ok? && Get(entries, "prerequest") != Some(NoCases) ==> "prerequest" !in Keys(r)
    ensures Get(entries, "prerequest") == Some(NoCases) ==> r == entries
  {
    var pre: Option<GroupEntry> := Get(entries, "prerequest");
    if pre.Some? && pre.value != NoCases && PrerequestEvents(entries).Ok? then Remove(entries, "prerequest")
    else entries
  }

  /** One request item: its name, its test script, its request and an empty response list. */
  function CaseItem(c: RequestCase): Result<Json> {
    var req :- RequestDocAsWritten(c);
    Ok(JObj([("name", JStr(c.name)), ("event", JArr(CaseEvents(c))), ("request", req), ("response", JArr([]))]))
  }

  /** A list comprehension whose element step may raise: the first error aborts it. */
  function MapAll<T, U>(f: T -> Result<U>, xs: seq<T>): Result<seq<U>>
    decreases |xs|
  {
    if |xs| == 0 then Ok([])
    else
      var y :- f(xs[0]);
      var rest :- MapAll(f, xs[1..]);
      Ok([y] + rest)
  }

  /** The comprehension succeeds exactly when every step does, and then holds each step's
      value, in order. */
  lemma {:induction false} MapAllShape<T, U>(f: T -> Result<U>, xs: seq<T>)
    ensures MapAll(f, xs).Ok? <==> forall i :: 0 <= i < |xs| ==> f(xs[i]).Ok?
    ensures MapAll(f, xs).Ok? ==>
      |MapAll(f, xs).value| == |xs| && forall i :: 0 <= i < |xs| ==> MapAll(f, xs).value[i] == f(xs[i]).value
    decreases |xs|
  {
    if |xs| > 0 {
      MapAllShape(f, xs[1..]);
      assert forall i :: 1 <= i < |xs| ==> xs[1..][i - 1] == xs[i];
    }
  }

  function CaseItems(cs: seq<RequestCase>): Result<seq<Json>> {
    MapAll(CaseItem, cs)
  }

  /** One folder per group. A non-empty hook list in a folder fails, as a hook has no `name`;
      a `None` group fails, as it cannot be iterated. */
  function Folder(name: string, e: GroupEntry): Result<Json> {
    match e
    case Cases(cs) =>
      var items :- CaseItems(cs);
      Ok(JObj([("name", JStr(name)), ("item", JArr(items))]))
    case Events(ps) =>
      if |ps| == 0 then Ok(JObj([("name", JStr(name)), ("item", JArr([]))])) else Err(AttributeError("name"))
    case NoCases => Err(TypeError("'NoneType' object is not iterable"))
  }

  function FolderOf(g: (string, GroupEntry)): Result<Json> {
    Folder(g.0, g.1)
  }

  function Folders(entries: Dict<GroupEntry>): Result<seq<Json>> {
    MapAll(FolderOf, entries)
  }

  function Info(name: string): Json {
    JObj([("name", JStr(name)), ("schema", JStr(Schema))])
  }

  /** The collection `create_apis` writes: `info`, one folder per group left after the events
      step, and the collection's events. */
  function ApisDoc(name: string, entries: Dict<GroupEntry>): Result<Json> {
    var ev :- PrerequestEvents(entries);
    var folders :- Folders(AfterEvents(entries));
    Ok(JObj([("info", Info(name)), ("item", JArr(folders)), ("event", JArr(ev))]))
  }

  /** A case can be emitted: it has headers, and its body (if any) is not a form with `files`. */
  predicate CaseOk(c: RequestCase) {
    c.headers.Some? && (c.body.Some? ==> BodyJson(c.body.value).Ok?)
  }

  predicate EntryOk(e: GroupEntry) {
    match e
    case Cases(cs) => forall i :: 0 <= i < |cs| ==> CaseOk(cs[i])
    case Events(ps) => |ps| == 0
    case NoCases => false
  }

  /** One case's item exists exactly when the case can be emitted, and carries its name and
      an empty response list. */
  lemma CaseItemFields(c: RequestCase)
    ensures CaseItem(c).Ok? <==> CaseOk(c)
    ensures CaseItem(c).Ok? ==>
      && Field(CaseItem(c).value, "name") == Some(JStr(c.name))
      && Field(CaseItem(c).value, "response") == Some(JArr([]))
  {
    RequestDocOk(c, "params");
    if CaseItem(c).Ok? {
      var d := CaseItem(c).value.fields;
      GetAt(d, 0);
      GetAt(d, 3);
    }
  }

  /** The items of a folder: one per case, in order, named after the case, with an empty
      response; the list exists exactly when every case can be emitted. */
  lemma CaseItemsShape(cs: seq<RequestCase>)
    ensures CaseItems(cs).Ok? <==> forall i :: 0 <= i < |cs| ==> CaseOk(cs[i])
    ensures CaseItems(cs).Ok? ==>
      && |CaseItems(cs).value| == |cs|
      && forall i :: 0 <= i < |cs| ==>
           && Field(CaseItems(cs).value[i], "name") == Some(JStr(cs[i].name))
           && Field(CaseItems(cs).value[i], "response") == Some(JArr([]))
  {
    MapAllShape(CaseItem, cs);
    forall i | 0 <= i < |cs|
      ensures CaseItem(cs[i]).Ok? <==> CaseOk(cs[i])
      ensures CaseItem(cs[i]).Ok? ==>
        && Field(CaseItem(cs[i]).value, "name") == Some(JStr(cs[i].name))
        && Field(CaseItem(cs[i]).value, "response") == Some(JArr([]))
    {
      CaseItemFields(cs[i]);
    }
  }

  /** One folder exists exactly when its group can be emitted; it carries the group's name and
      one item per case. */
  lemma FolderFields(name: string, e: GroupEntry)
    ensures Folder(name, e).Ok? <==> EntryOk(e)
    ensures Folder(name, e).Ok? ==>
      && Field(Folder(name, e).value, "name") == Some(JStr(name))
      && Field(Folder(name, e).value, "item").Some?
      && Field(Folder(name, e).value, "item").value.JArr?
      && |Field(Folder(name, e).value, "item").value.items| == if e.Cases? then |e.cases| else 0
  {
    if e.Cases? {
      CaseItemsShape(e.cases);
    }
    if Folder(name, e).Ok? {
      var d := Folder(name, e).value.fields;
      Get2("name", d[0].1, "item", d[1].1);
    }
  }

  /** One folder per group, in the groups' order, named after the group, holding one item per
      case; the folders exist exactly when every group can be emitted. */
  lemma FoldersShape(entries: Dict<GroupEntry>)
    ensures Folders(entries).Ok? <==> forall i :: 0 <= i < |entries| ==> EntryOk(entries[i].1)
    ensures Folders(entries).Ok? ==>
      && |Folders(entries).value| == |entries|
      && forall i :: 0 <= i < |entries| ==>
           && Field(Folders(entries).value[i], "name") == Some(JStr(entries[i].0))
           && Field(Folders(entries).value[i], "item").Some?
           && Field(Folders(entries).value[i], "item").value.JArr?
           && |Field(Folders(entries).value[i], "item").value.items|
                == if entries[i].1.Cases? then |entries[i].1.cases| else 0
  {
    MapAllShape(FolderOf, entries);
    forall i | 0 <= i < |entries|
      ensures FolderOf(entries[i]).Ok? <==> EntryOk(entries[i].1)
      ensures FolderOf(entries[i]).Ok? ==>
        && Field(FolderOf(entries[i]).value, "name") == Some(JStr(entries[i].0))
        && Field(FolderOf(entries[i]).value, "item").Some?
        && Field(FolderOf(entries[i]).value, "item").value.JArr?
        && |Field(FolderOf(entries[i]).value, "item").value.items|
             == if entries[i].1.Cases? then |entries[i].1.cases| else 0
    {
      FolderFields(entries[i].0, entries[i].1);
    }
  }

  /** `create_apis` succeeds exactly when the `prerequest` entry can be read and every group
      left after deleting it can be emitted; the collection then holds one folder per such
      group and the hooks as its events. */
  lemma ApisDocShape(name: string, entries: Dict<GroupEntry>)
    ensures ApisDoc(name, entries).Ok? <==>
      PrerequestEvents(entries).Ok? &&
      forall i :: 0 <= i < |AfterEvents(entries)| ==> EntryOk(AfterEvents(entries)[i].1)
    ensures ApisDoc(name, entries).Ok? ==>
      && Field(ApisDoc(name, entries).value, "item").Some?
      && Field(ApisDoc(name, entries).value, "item").value.JArr?
      && |Field(ApisDoc(name, entries).value, "item").value.items| == |AfterEvents(entries)|
      && Field(ApisDoc(name, entries).value, "event") == Some(JArr(PrerequestEvents(entries).value))
      && "prerequest" !in Keys(AfterEvents(entries))
  {
    FoldersShape(AfterEvents(entries));
    if ApisDoc(name, entries).Ok? {
      Get3("info", Info(name), "item", JArr(Folders(AfterEvents(entries)).value),
           "event", JArr(PrerequestEvents(entries).value));
    }
  }

  /** Emitting twice from the same `groups` object: the first run deleted `prerequest`, so the
      second run writes the default events, over the same folders. */
  lemma SecondRunUsesDefaultEvents(name: string, entries: Dict<GroupEntry>)
    requires ApisDoc(name, entries).Ok?
    ensures AfterEvents(AfterEvents(entries)) == AfterEvents(entries)
    ensures PrerequestEvents(AfterEvents(entries)) == Ok(CreateEvents(None))
    ensures ApisDoc(name, AfterEvents(entries)).Ok?
    ensures Field(ApisDoc(name, AfterEvents(entries)).value, "item") == Field(ApisDoc(name, entries).value, "item")
  {
    var after := AfterEvents(entries);
    ApisDocShape(name, entries);
    assert Get(after, "prerequest").None?;
    var folders := JArr(Folders(after).value);
    Get3("info", Info(name), "item", folders, "event", JArr(PrerequestEvents(entries).value));
    Get3("info", Info(name), "item", folders, "event", JArr(CreateEvents(None)));
  }

  /** A `None` under `prerequest` reads as absent, so it is not deleted; it then stays among the
      groups and cannot be iterated as a folder, so the collection is never built. */
  lemma NonePrerequestFails(name: string, entries: Dict<GroupEntry>)
    requires Get(entries, "prerequest") == Some(NoCases)
    ensures PrerequestEvents(entries) == Ok(CreateEvents(None))
    ensures ApisDoc(name, entries).Err?
  {
    assert ("prerequest", NoCases) in entries;
    var i :| 0 <= i < |entries| && entries[i] == ("prerequest", NoCases);
    ApisDocShape(name, entries);
    assert !EntryOk(AfterEvents(entries)[i].1);
  }

  /** A group dict the emitter reads and updates in place. */
  class Groups {
    var entries: Dict<GroupEntry>

    constructor (entries: Dict<GroupEntry>)
      ensures this.entries == entries
    {
      this.entries := entries;
    }
  }

  /** `PostmanCreator(name, output_url)`. The output path is kept; the file write is not modelled. */
  class PostmanCreator {
    const name: string
    const outputUrl: string

    constructor (name: string, outputUrl: string)
      ensures this.name == name && this.outputUrl == outputUrl
    {
      this.name := name;
      this.outputUrl := outputUrl;
    }

    /** `create_info()`: the collection's name and the v2.1.0 schema URL. */
    function CreateInfo(): (r: Json)
      ensures Field(r, "name") == Some(JStr(name))
      ensures Field(r, "schema") == Some(JStr(Schema))
    {
      Get2("name", JStr(name), "schema", JStr(Schema));
      Info(name)
    }

    /** `create_apis(groups)`: reads and deletes `prerequest` in place, then builds the
        collection from the remaining groups. */
    method CreateApis(groups: Groups) returns (r: Result<Json>)
      modifies groups
      ensures groups.entries == AfterEvents(old(groups.entries))
      ensures r == ApisDoc(name, old(groups.entries))
    {
      var ev := PrerequestEvents(groups.entries);
      if ev.Err? {
        return Err(ev.error);
      }
      var pre: Option<GroupEntry> := Get(groups.entries, "prerequest");
      if pre.Some? && pre.value != NoCases {
        groups.entries := Remove(groups.entries, "prerequest");
      }
      var folders := Folders(groups.entries);
      if folders.Err? {
        return Err(folders.error);
      }
      return Ok(JObj([("info", CreateInfo()), ("item", JArr(folders.value)), ("event", JArr(ev.value))]));
    }
  }
}
