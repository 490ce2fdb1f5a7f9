/**
 * The event-bus address split shared by src/server/vertx/http.js and
 * build/resources/main/server.js: `url.substring(1).split('/')`, whose first
 * piece names the namespace (`API` or `FS`) and whose second, possibly
 * missing, names the method.
 */
module Bus {
  import opened Results
  import opened JsString

  datatype Target = Target(call: string, methodName: Option<string>)

  function TargetOf(url: string): (t: Target)
    ensures '/' !in t.call
    ensures t.methodName.Some? ==> '/' !in t.methodName.value
  {
    var rest := if |url| == 0 then "" else url[1..];
    var pair := Split(rest, '/');
    SplitPiecesFree(rest, '/');
    Target(pair[0], if |pair| >= 2 then Some(pair[1]) else None)
  }

  /** `/<call>/<method>` and `/<call>/<method>/...` name that call and method. */
  lemma {:induction false} TargetOfAddress(call: string, name: string, more: string)
    requires '/' !in call && '/' !in name
    ensures TargetOf("/" + call + "/" + name) == Target(call, Some(name))
    ensures TargetOf("/" + call + "/" + name + "/" + more) == Target(call, Some(name))
  {
    SplitNoSeparator(call, '/');
    SplitNoSeparator(name, '/');
    var u1 := "/" + call + "/" + name;
    assert u1[1..] == call + ['/'] + name;
    SplitAppend(call, '/', name);
    var u2 := "/" + call + "/" + name + "/" + more;
    assert u2[1..] == call + ['/'] + (name + ['/'] + more);
    SplitAppend(call, '/', name + ['/'] + more);
    SplitAppend(name, '/', more);
  }

  /** An address with a single piece names no method. */
  lemma NoMethod(call: string)
    requires '/' !in call
    ensures TargetOf("/" + call) == Target(call, None)
  {
    assert ("/" + call)[1..] == call;
    SplitNoSeparator(call, '/');
  }
}
