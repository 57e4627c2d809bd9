/** The front end's HTTP client: the token header added to every request, and what a failed
    response does: a 401 clears the stored session and sends the browser to the login page,
    and every failure is reported with one message drawn from the response body. */
module ApiClient {
  import opened Common
  import opened Js

  /** `${v}` where v may be undefined. */
  function Template(v: Option<Json>): string {
    if v.Some? then ToStr(v.value) else "undefined"
  }

  const DefaultMessage: Json := JStr("An error occurred")

  /** The message of the error toast: a string body as it is; otherwise the first truthy of
      the body's `error`, `detail` and `message`, then `items` as JSON; otherwise
      "key: value" for the body's first key, the value being the first element of an array;
      the default for a falsy body, or when the first key or its value is falsy. */
  function ErrorMessage(data: Option<Json>): (m: Json)
    ensures !Truthy(data) ==> m == DefaultMessage
    ensures Truthy(data) && data.value.JStr? ==> m == data.value
    ensures Truthy(Some(m))
  {
    if !Truthy(data) then DefaultMessage
    else if data.value.JStr? then data.value
    else if Truthy(Prop(data, "error")) then Prop(data, "error").value
    else if Truthy(Prop(data, "detail")) then Prop(data, "detail").value
    else if Truthy(Prop(data, "message")) then Prop(data, "message").value
    else if Truthy(Prop(data, "items")) then JStr(Stringify(Prop(data, "items").value))
    else FirstFieldMessage(data.value)
  }

  /** "key: value" for the first key of the body, the first element when the value is an
      array; the default when there is no first key, it is empty, or its value is falsy. */
  function FirstFieldMessage(data: Json): (m: Json)
    ensures m == DefaultMessage || (Keys(data) != [] && m.JStr? && StartsWith(m.s, Keys(data)[0] + ": "))
    ensures Keys(data) == [] ==> m == DefaultMessage
  {
    var keys := Keys(data);
    if keys == [] || keys[0] == "" || !Truthy(Prop(Some(data), keys[0])) then DefaultMessage
    else
      var v := Prop(Some(data), keys[0]);
      var shown := if IsArray(v) then Prop(v, "0") else v;
      JStr(keys[0] + ": " + Template(shown))
  }

  /** A validation error of the API, `{field: [message, ...]}` for a field other than the
      four named ones, is shown as "field: message". */
  lemma FieldErrorShown(field: string, msg: string, rest: seq<Json>)
    requires field != "" && field !in {"error", "detail", "message", "items"}
    ensures ErrorMessage(Some(JObj([(field, JArr([JStr(msg)] + rest))]))) == JStr(field + ": " + msg)
  {
    var data := JObj([(field, JArr([JStr(msg)] + rest))]);
    assert Keys(data) == [field];
    assert IndexKey("0") == Some(0) by {
      assert AllDigits("0") && DecimalValue("0") == 0;
    }
  }

  /** A refusal the API raises outside any field, such as a failed login, is shown under its
      key: `{"non_field_errors": ["Invalid credentials"]}` reads
      "non_field_errors: Invalid credentials". */
  lemma NonFieldErrorShown(msg: string)
    ensures ErrorMessage(Some(JObj([("non_field_errors", JArr([JStr(msg)]))]))) == JStr("non_field_errors: " + msg)
  {
    FieldErrorShown("non_field_errors", msg, []);
  }

  /** The `error` member wins over every other member, whatever they hold. */
  lemma ErrorWins(e: string, others: seq<(string, Json)>)
    requires e != ""
    ensures ErrorMessage(Some(JObj([("error", JStr(e))] + others))) == JStr(e)
  {
  }

  /** A falsy `error` is passed over: `{"error": "", "detail": d}` shows d. */
  lemma FalsyFallsThrough(d: string)
    requires d != ""
    ensures ErrorMessage(Some(JObj([("error", JStr("")), ("detail", JStr(d))]))) == JStr(d)
  {
    var fields := [("error", JStr("")), ("detail", JStr(d))];
    assert fields[1..] == [("detail", JStr(d))];
    assert Member(fields, "detail") == Some(JStr(d));
  }

  /** A first field holding a falsy value gives the default, even when a later field would
      give a message. */
  lemma FalsyFirstFieldDefault(field: string, later: seq<(string, Json)>)
    requires field !in {"error", "detail", "message", "items"}
    requires forall k :: 0 <= k < |later| ==> later[k].0 !in {"error", "detail", "message", "items"}
    ensures ErrorMessage(Some(JObj([(field, JStr(""))] + later))) == DefaultMessage
  {
    var fields := [(field, JStr(""))] + later;
    assert Keys(JObj(fields))[0] == field;
    if field != "" {
      assert Member(fields, field) == Some(JStr(""));
    }
  }

  /** The stored session and the page the browser shows. */
  class Browser {
    var storage: map<string, string>
    var location: string

    /** The request interceptor: "Token <t>" is added as the Authorization header when a
        non-empty token is stored, and the headers are otherwise left as they are. */
    function WithAuthorization(headers: map<string, string>): (h: map<string, string>)
      reads this
      ensures forall k :: k in headers && k != "Authorization" ==> k in h && h[k] == headers[k]
      ensures forall k :: k in h && k != "Authorization" ==> k in headers
      ensures ("token" in storage && storage["token"] != "") ==> "Authorization" in h && h["Authorization"] == "Token " + storage["token"]
      ensures !("token" in storage && storage["token"] != "") ==> h == headers
    {
      if "token" in storage && storage["token"] != "" then headers["Authorization" := "Token " + storage["token"]]
      else headers
    }

    /** The response interceptor for a failure: a 401 removes the stored token and user and
        sends the browser to the login page; every failure yields the toast's message. */
    method OnError(status: Option<int>, data: Option<Json>) returns (message: Json)
      modifies this
      ensures message == ErrorMessage(data)
      ensures status == Some(401) ==> storage == old(storage) - {"token", "user"} && location == "/login"
      ensures status != Some(401) ==> storage == old(storage) && location == old(location)
    {
      if status == Some(401) {
        storage := storage - {"token", "user"};
        location := "/login";
      }
      message := ErrorMessage(data);
    }
  }
}
