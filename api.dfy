/**
  The calls to the Mailchimp REST API (`api_call`, `fetch_lists`,
  `create_list_member`). The transport `wp_remote_request` is a parameter
  `send` from request to response, so each call states which request it
  issues, if any, and how the response is classified.
 */
module Api {
  import opened Php
  import opened Foreign
  import opened Settings

  const ApiRoot := ".api.mailchimp.com/3.0"

  datatype Request = Request(verb: string, url: string, headers: seq<string>, body: map<string, string>)

  /** What the transport returns: a response, or a WP_Error when no response came. */
  datatype Response = Response(code: int, content: string) | TransportError

  /** `api_call`'s three outcomes: false, true for an empty body, or the decoded body. */
  datatype CallResult = Failure | EmptyBody | Decoded(value: Json)

  /** One call: the request issued (None when none was) and its result. */
  datatype Call = Call(request: Option<Request>, result: CallResult)

  /** `(int) wp_remote_retrieve_response_code($response)`: a WP_Error gives '' and so 0. */
  function StatusOf(response: Response): (status: int)
    ensures response.Response? ==> status == response.code
    ensures response.TransportError? ==> status == 0 && !(200 <= status <= 400)
  {
    match response
    case Response(code, _) => code
    case TransportError => 0
  }

  /** `wp_remote_retrieve_body($response)`: a WP_Error gives "". */
  function BodyOf(response: Response): (body: string)
    ensures response.Response? ==> body == response.content
    ensures response.TransportError? ==> Empty(body)
  {
    match response
    case Response(_, content) => content
    case TransportError => ""
  }

  /** The PHP value `api_call` returns for each outcome. */
  function AsPhp(result: CallResult): (v: Json)
    ensures result.Failure? ==> v == JBool(false) && !Truthy(v)
    ensures result.EmptyBody? ==> v == JBool(true) && Truthy(v)
    ensures result.Decoded? ==> v == result.value
  {
    match result
    case Failure => JBool(false)
    case EmptyBody => JBool(true)
    case Decoded(value) => value
  }

  /**
    The classification at the end of `api_call`: a status below 200 or above
    400 fails, so 3xx and 400 itself succeed and a missing response (status
    0) fails; a succeeding PHP-empty body ("" or "0") is `true`, any other
    body is decoded.
   */
  function Classify(status: int, body: string, decode: string -> Json): (r: CallResult)
    ensures r.Failure? <==> !(200 <= status <= 400)
    ensures r.EmptyBody? <==> 200 <= status <= 400 && Empty(body)
    ensures r.Decoded? ==> r.value == decode(body)
  {
    if status < 200 || status > 400 then Failure
    else if Empty(body) then EmptyBody
    else Decoded(decode(body))
  }

  /** `key[i]` is the first `-` of the key. */
  predicate FirstHyphenAt(key: string, i: int) {
    0 <= i < |key| && key[i] == '-' && '-' !in key[..i]
  }

  /**
    The datacenter: `substr($api_key, strpos($api_key, '-') + 1)`. With no
    `-`, `strpos` is false and false + 1 is 1, so it is the key from its
    second character on. In every case it is a proper suffix of a
    non-empty key.
   */
  function Datacenter(key: string): (dc: string)
    ensures |dc| <= |key| && dc == key[|key| - |dc|..]
    ensures key != "" ==> |dc| < |key|
    ensures forall i :: FirstHyphenAt(key, i) ==> dc == key[i + 1..]
    ensures '-' !in key && key != "" ==> dc == key[1..]
  {
    var start := match StrPos(key, '-') case Some(i) => i + 1 case None => 1;
    SubstrFrom(key, start)
  }

  /** The datacenter is the text after the first `-`. */
  lemma DatacenterAfterFirstHyphen(p: string, rest: string)
    requires '-' !in p
    ensures Datacenter(p + "-" + rest) == rest
  {
    StrPosAfterPrefix(p, '-', rest);
    assert (p + "-" + rest)[|p| + 1..] == rest;
  }

  /** `array_merge(['apikey' => $key], $body)`: the caller's fields win over `apikey`. */
  function RequestBody(key: string, body: map<string, string>): (b: map<string, string>)
    ensures b.Keys == body.Keys + {"apikey"}
    ensures forall k :: k in body ==> b[k] == body[k]
    ensures "apikey" !in body ==> b["apikey"] == key
  {
    map["apikey" := key] + body
  }

  /** The request `api_call` hands to the transport for a non-empty key. */
  function BuildRequest(host: Host, key: string, verb: string, resource: string, body: map<string, string>): (req: Request)
    ensures req.verb == verb
    ensures forall i :: FirstHyphenAt(key, i) ==>
              req.url == "https://" + key[i + 1..] + ".api.mailchimp.com/3.0" + resource
    ensures '-' !in key && key != "" ==> req.url == "https://" + key[1..] + ".api.mailchimp.com/3.0" + resource
    ensures |req.headers| == 2 && req.headers[0] == "Content-Type: application/json"
    ensures req.headers[1] == "Authorization: Basic " + host.base64Encode("user:" + key)
    ensures req.body.Keys == body.Keys + {"apikey"}
    ensures forall k :: k in body ==> req.body[k] == body[k]
    ensures "apikey" !in body ==> req.body["apikey"] == key
  {
    var dc := Datacenter(key);
    Request(
      verb,
      "https://" + dc + ApiRoot + resource,
      ["Content-Type: application/json", "Authorization: Basic " + host.base64Encode("user:" + key)],
      RequestBody(key, body))
  }

  /**
    `api_call`: with a PHP-empty stored key it fails without issuing any
    request; otherwise it issues exactly the request built from the stored
    key and classifies the transport's answer.
   */
  function ApiCall(options: Options, host: Host, send: Request -> Response,
                   verb: string, resource: string, body: map<string, string>): (c: Call)
    ensures Empty(GetSettings(options)["key"]) <==> c.request.None?
    ensures c.request.None? ==> c.result.Failure?
    ensures c.request.Some? ==>
              c.request.value == BuildRequest(host, GetSettings(options)["key"], verb, resource, body) &&
              c.result == Classify(StatusOf(send(c.request.value)), BodyOf(send(c.request.value)), host.jsonDecode)
  {
    var key := GetSettings(options)["key"];
    if Empty(key) then Call(None, Failure)
    else
      var req := BuildRequest(host, key, verb, resource, body);
      var response := send(req);
      Call(Some(req), Classify(StatusOf(response), BodyOf(response), host.jsonDecode))
  }

  /** For a key `p-dc` the request goes to `https://dc.api.mailchimp.com/3.0` plus the resource. */
  lemma ApiCallUrl(options: Options, host: Host, send: Request -> Response,
                   verb: string, resource: string, body: map<string, string>, p: string, dc: string)
    requires GetSettings(options)["key"] == p + "-" + dc && '-' !in p
    ensures ApiCall(options, host, send, verb, resource, body).request.Some?
    ensures ApiCall(options, host, send, verb, resource, body).request.value.url
              == "https://" + dc + ".api.mailchimp.com/3.0" + resource
  {
    DatacenterAfterFirstHyphen(p, dc);
    assert !Empty(p + "-" + dc) by {
      assert |p + "-" + dc| >= 1 && (p + "-" + dc)[|p|] == '-';
    }
  }

  /**
    `fetch_lists`: `GET /lists`, then `$result->lists` when the result is
    truthy and false otherwise. So it is false whenever `api_call` fails,
    whenever the body does not decode to a truthy value, and null for an
    empty body.
   */
  function FetchLists(options: Options, host: Host, send: Request -> Response): (lists: Json)
    ensures var c := ApiCall(options, host, send, "GET", "/lists", map[]);
            && (c.request.Some? ==> c.request.value.verb == "GET" && c.request.value.body.Keys == {"apikey"})
            && (c.result.Failure? ==> lists == JBool(false))
            && (c.result.EmptyBody? ==> lists == JNull)
            && (c.result.Decoded? && !Truthy(c.result.value) ==> lists == JBool(false))
            && (c.result.Decoded? && Truthy(c.result.value) ==> lists == Property(c.result.value, "lists"))
            && (c.result.Decoded? && c.result.value.JObject? && "lists" in c.result.value.fields ==>
                  lists == c.result.value.fields["lists"])
            && (c.result.Decoded? && c.result.value.JObject? && "lists" !in c.result.value.fields ==>
                  lists == JNull)
  {
    var result := AsPhp(ApiCall(options, host, send, "GET", "/lists", map[]).result);
    if Truthy(result) then Property(result, "lists") else JBool(false)
  }

  /** The member resource: `/lists/{list_id}/members/` and the md5 of the lower-cased email. */
  function MemberResource(host: Host, listId: string, email: string): (r: string)
    ensures forall other :: SameIgnoringAsciiCase(other, email) ==>
              r == "/lists/" + listId + "/members/" + host.md5(StrToLower(other))
  {
    assert forall other :: SameIgnoringAsciiCase(other, email) ==> StrToLower(other) == StrToLower(email) by {
      forall other | SameIgnoringAsciiCase(other, email)
        ensures StrToLower(other) == StrToLower(email)
      {
        StrToLowerIgnoresCase(other, email);
      }
    }
    "/lists/" + listId + "/members/" + host.md5(StrToLower(email))
  }

  /**
    `create_list_member`: a `POST` to the member resource of the configured
    list, with the email in the body beside `apikey`.
   */
  function CreateListMember(options: Options, host: Host, send: Request -> Response, email: string): (c: Call)
    ensures c == ApiCall(options, host, send, "POST",
                         MemberResource(host, GetSettings(options)["list_id"], email), map["email" := email])
    ensures c.request.Some? ==>
              && c.request.value.verb == "POST"
              && c.request.value.body == map["apikey" := GetSettings(options)["key"], "email" := email]
  {
    var listId := GetSettings(options)["list_id"];
    ApiCall(options, host, send, "POST", MemberResource(host, listId, email), map["email" := email])
  }

  /**
    Two emails that differ only in ASCII case address the same member: the
    request goes to the same URL, and only the `email` field of the body
    differs.
   */
  lemma CreateListMemberIgnoresCase(options: Options, host: Host, send: Request -> Response, a: string, b: string)
    requires SameIgnoringAsciiCase(a, b)
    ensures CreateListMember(options, host, send, a).request.Some?
              == CreateListMember(options, host, send, b).request.Some?
    ensures CreateListMember(options, host, send, a).request.Some? ==>
              CreateListMember(options, host, send, a).request.value.url
                == CreateListMember(options, host, send, b).request.value.url
  {
  }
}
