/** The conversion of a backend's presigned request into the service's presign response. */
module Service {
  import opened Wrappers

  /**
   * A presigned request: the HTTP method's text, the URI's text, and the header pairs in the
   * order the header map iterates them (names in their canonical text, values as raw bytes).
   */
  datatype PresignedRequest = PresignedRequest(httpMethod: string, uri: string, headers: seq<(string, seq<bv8>)>)

  datatype PresignResponse = PresignResponse(httpMethod: string, uri: string, headers: map<string, string>)

  /** The bytes a header value may hold to be readable as text: visible ASCII and tab. */
  predicate IsVisible(b: bv8) {
    b == 9 || (32 <= b && b < 127)
  }

  /** `HeaderValue::to_str`: the value as text when every byte is visible, and nothing otherwise. */
  function ToStr(v: seq<bv8>): (r: Option<string>)
    ensures r.Some? <==> forall i :: 0 <= i < |v| ==> IsVisible(v[i])
    ensures r.Some? ==> |r.value| == |v| && forall i :: 0 <= i < |v| ==> r.value[i] as int == v[i] as int
  {
    if forall i :: 0 <= i < |v| ==> IsVisible(v[i]) then
      Some(seq(|v|, i requires 0 <= i < |v| => (v[i] as int) as char))
    else None
  }

  /** The header value's text, or the empty string when it is not text (`unwrap_or_default`). */
  function HeaderText(v: seq<bv8>): (r: string)
    ensures (exists i :: 0 <= i < |v| && !IsVisible(v[i])) ==> r == ""
    ensures (forall i :: 0 <= i < |v| ==> IsVisible(v[i])) ==>
              |r| == |v| && forall i :: 0 <= i < |v| ==> r[i] as int == v[i] as int
  {
    ToStr(v).GetOr("")
  }

  /** The names that occur in a sequence of header pairs. */
  function Names(pairs: seq<(string, seq<bv8>)>): set<string> {
    set i | 0 <= i < |pairs| :: pairs[i].0
  }

  /** The pair at index `i` is the last one with its name. */
  predicate IsLastOfName(pairs: seq<(string, seq<bv8>)>, i: nat)
    requires i < |pairs|
  {
    forall j :: i < j < |pairs| ==> pairs[j].0 != pairs[i].0
  }

  lemma NamesSnoc(pairs: seq<(string, seq<bv8>)>)
    requires pairs != []
    ensures Names(pairs) == Names(pairs[..|pairs| - 1]) + {pairs[|pairs| - 1].0}
  {
  }

  /** The text of the last pair named `name`, scanning from the end; nothing when no pair has that name. */
  function LastValue(pairs: seq<(string, seq<bv8>)>, name: string): Option<string> {
    if pairs == [] then None
    else if pairs[|pairs| - 1].0 == name then Some(HeaderText(pairs[|pairs| - 1].1))
    else LastValue(pairs[..|pairs| - 1], name)
  }

  /** The pair that is the last with its name is the one `LastValue` finds. */
  lemma {:induction false} LastValueOfLastPair(pairs: seq<(string, seq<bv8>)>, i: nat)
    requires i < |pairs| && IsLastOfName(pairs, i)
    ensures LastValue(pairs, pairs[i].0) == Some(HeaderText(pairs[i].1))
    decreases |pairs|
  {
    if i < |pairs| - 1 {
      var init := pairs[..|pairs| - 1];
      assert init[i] == pairs[i];
      assert IsLastOfName(init, i);
      LastValueOfLastPair(init, i);
    }
  }

  /**
   * `collect` of the converted pairs into a map: the keys are the names, and each name
   * keeps the text of its last pair.
   */
  function CollectHeaders(pairs: seq<(string, seq<bv8>)>): (m: map<string, string>)
    ensures m.Keys == Names(pairs)
    ensures forall name :: name in m ==> LastValue(pairs, name) == Some(m[name])
  {
    if pairs == [] then map[]
    else
      var init, last := pairs[..|pairs| - 1], pairs[|pairs| - 1];
      NamesSnoc(pairs);
      CollectHeaders(init)[last.0 := HeaderText(last.1)]
  }

  /** `From<PresignedRequest> for PresignResponse`. */
  function FromPresigned(req: PresignedRequest): (r: PresignResponse)
    ensures r.httpMethod == req.httpMethod && r.uri == req.uri
    ensures r.headers.Keys == Names(req.headers)
    ensures forall i :: 0 <= i < |req.headers| && IsLastOfName(req.headers, i) ==>
              r.headers[req.headers[i].0] == HeaderText(req.headers[i].1)
  {
    var headers := CollectHeaders(req.headers);
    assert forall i :: 0 <= i < |req.headers| && IsLastOfName(req.headers, i) ==>
             headers[req.headers[i].0] == HeaderText(req.headers[i].1) by {
      forall i | 0 <= i < |req.headers| && IsLastOfName(req.headers, i)
        ensures headers[req.headers[i].0] == HeaderText(req.headers[i].1)
      {
        LastValueOfLastPair(req.headers, i);
      }
    }
    PresignResponse(req.httpMethod, req.uri, headers)
  }
}
