/** Reading the record identifier from the page's query string. */
module Utils {
  import opened JsValues

  /** The position of the first `c` in `s`, or `|s|` when there is none. */
  function IndexOf(s: string, c: char): (i: nat)
    ensures i <= |s|
    ensures i < |s| ==> s[i] == c
    ensures forall k :: 0 <= k < i ==> s[k] != c
  {
    if s == [] || s[0] == c then 0 else 1 + IndexOf(s[1..], c)
  }

  /** `new URLSearchParams(q).get(key)` for a query string without its
      leading "?": the value of the first non-empty `&`-separated parameter
      whose name is `key` ("" when it has no `=`), None when there is none. */
  function ParamValue(q: string, key: string): Option<string>
    decreases |q|
  {
    var i := IndexOf(q, '&');
    var param := q[..i];
    var j := IndexOf(param, '=');
    if param != "" && param[..j] == key then Some(if j < |param| then param[j + 1..] else "")
    else if i < |q| then ParamValue(q[i + 1..], key)
    else None
  }

  /** getQueryParams().recordId: the `vendorId` parameter of the query
      string, or none when the page has no query, no such parameter, or an
      empty one. */
  function RecordIdOf(query: Option<string>): (r: Option<string>)
    ensures r.Some? ==> r.value != ""
    ensures r.Some? <==> query.Some? && ParamValue(query.value, "vendorId").Some? &&
                         ParamValue(query.value, "vendorId").value != ""
    ensures r.Some? ==> r == ParamValue(query.value, "vendorId")
  {
    match query
    case None => None
    case Some(q) =>
      match ParamValue(q, "vendorId")
      case Some(v) => if v != "" then Some(v) else None
      case None => None
  }

  /** A query string holding just `key=v` yields `v` for `key`. */
  lemma ParamValueOfSingle(key: string, v: string)
    requires key != ""
    requires forall k :: 0 <= k < |key| ==> key[k] != '&' && key[k] != '='
    requires forall k :: 0 <= k < |v| ==> v[k] != '&'
    ensures ParamValue(key + "=" + v, key) == Some(v)
  {
    var q := key + "=" + v;
    var i := IndexOf(q, '&');
    assert i == |q|;
    assert q[..i] == q;
    var j := IndexOf(q, '=');
    assert q[|key|] == '=';
    assert j == |key|;
    assert q[..j] == key;
    assert q[j + 1..] == v;
  }

  /** A parameter of another name before `key` is skipped. */
  lemma ParamValueSkips(other: string, rest: string, key: string)
    requires other != "" && forall k :: 0 <= k < |other| ==> other[k] != '&'
    requires other[..IndexOf(other, '=')] != key
    ensures ParamValue(other + "&" + rest, key) == ParamValue(rest, key)
  {
    var q := other + "&" + rest;
    var i := IndexOf(q, '&');
    assert q[|other|] == '&';
    assert i == |other|;
    assert q[..i] == other;
    assert q[i + 1..] == rest;
  }
}
