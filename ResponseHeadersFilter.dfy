/**
 * The first filter of every request: on an HTTP response it sets eight fixed
 * security headers, one after the other, and then hands the request and the
 * response on to the rest of the chain.
 */
module ResponseHeadersFilter {
  import opened Web

  /** The eight headers in the order the filter sets them, integer values already in text form. */
  const SecurityHeaders: seq<(string, string)> := [
    ("X-XSS-Protection", "0"),
    ("Strict-Transport-Security", "max-age=31536000; includeSubDomains"),
    ("X-Frame-Options", "deny"),
    ("X-Content-Type-Options", "nosniff"),
    ("Content-Security-Policy", "default-src 'self'; frame-ancestors 'none';"),
    ("Cache-Control", "no-cache, no-store, max-age=0, must-revalidate"),
    ("Pragma", "no-cache"),
    ("Expires", "0")
  ]

  /** Setting each header of `hs` in turn: every set replaces all earlier values of that header. */
  function SetAll(h: map<string, seq<string>>, hs: seq<(string, string)>): map<string, seq<string>>
    decreases |hs|
  {
    if hs == [] then h else SetAll(h[hs[0].0 := [hs[0].1]], hs[1..])
  }

  /** The headers of `hs` as a map, a later entry for the same name winning. */
  function AsMap(hs: seq<(string, string)>): map<string, seq<string>>
    decreases |hs|
  {
    if hs == [] then map[] else map[hs[0].0 := [hs[0].1]] + AsMap(hs[1..])
  }

  /** Setting the headers one by one is the same as overriding the old map with all of them at once. */
  lemma {:induction false} SetAllIsOverride(h: map<string, seq<string>>, hs: seq<(string, string)>)
    ensures SetAll(h, hs) == h + AsMap(hs)
    decreases |hs|
  {
    if hs != [] {
      var n, v := hs[0].0, hs[0].1;
      SetAllIsOverride(h[n := [v]], hs[1..]);
      assert h[n := [v]] + AsMap(hs[1..]) == h + (map[n := [v]] + AsMap(hs[1..]));
    }
  }

  /** The header names of `hs`. */
  function Names(hs: seq<(string, string)>): set<string>
  {
    set i | 0 <= i < |hs| :: hs[i].0
  }

  /** No header name occurs twice in `hs`. */
  predicate DistinctNames(hs: seq<(string, string)>)
  {
    forall i, j :: 0 <= i < j < |hs| ==> hs[i].0 != hs[j].0
  }

  /** The map of `hs` has exactly the names of `hs` as keys. */
  lemma {:induction false} AsMapKeys(hs: seq<(string, string)>)
    ensures AsMap(hs).Keys == Names(hs)
    decreases |hs|
  {
    if hs != [] {
      AsMapKeys(hs[1..]);
      assert Names(hs) == {hs[0].0} + Names(hs[1..]) by {
        forall k | k in Names(hs) ensures k in {hs[0].0} + Names(hs[1..]) {
          var i :| 0 <= i < |hs| && hs[i].0 == k;
          if i > 0 { assert hs[1..][i - 1].0 == k; }
        }
        forall k | k in Names(hs[1..]) ensures k in Names(hs) {
          var i :| 0 <= i < |hs[1..]| && hs[1..][i].0 == k;
          assert hs[i + 1].0 == k;
        }
      }
    }
  }

  /** With distinct names, each name of `hs` maps to exactly its own value. */
  lemma {:induction false} AsMapAt(hs: seq<(string, string)>, i: nat)
    requires DistinctNames(hs) && i < |hs|
    ensures hs[i].0 in AsMap(hs) && AsMap(hs)[hs[i].0] == [hs[i].1]
    decreases |hs|
  {
    AsMapKeys(hs[1..]);
    if i == 0 {
      assert hs[0].0 !in Names(hs[1..]);
    } else {
      AsMapAt(hs[1..], i - 1);
    }
  }

  /** The eight names are distinct (they even differ in length). */
  lemma SecurityHeaderNamesDistinct()
    ensures DistinctNames(SecurityHeaders)
  {
    assert forall i :: 0 <= i < |SecurityHeaders| ==> |SecurityHeaders[i].0| == [16, 25, 15, 22, 23, 13, 6, 7][i];
  }

  /** Each of the eight headers holds exactly one value, its literal one. */
  predicate HasSecurityHeaders(h: map<string, seq<string>>)
  {
    forall i :: 0 <= i < |SecurityHeaders| ==> SecurityHeaders[i].0 in h && h[SecurityHeaders[i].0] == [SecurityHeaders[i].1]
  }

  /** After the headers are set, each of the eight holds exactly its literal value, whatever was there before. */
  lemma SecurityHeadersHold(h: map<string, seq<string>>)
    ensures HasSecurityHeaders(SetAll(h, SecurityHeaders))
  {
    SetAllIsOverride(h, SecurityHeaders);
    SecurityHeaderNamesDistinct();
    forall i | 0 <= i < |SecurityHeaders|
      ensures SecurityHeaders[i].0 in AsMap(SecurityHeaders) && AsMap(SecurityHeaders)[SecurityHeaders[i].0] == [SecurityHeaders[i].1]
    {
      AsMapAt(SecurityHeaders, i);
    }
  }

  /** Headers other than the eight are left exactly as they were. */
  lemma OtherHeadersUnchanged(h: map<string, seq<string>>, name: string)
    requires name !in Names(SecurityHeaders)
    ensures name in SetAll(h, SecurityHeaders) <==> name in h
    ensures name in h ==> SetAll(h, SecurityHeaders)[name] == h[name]
  {
    SetAllIsOverride(h, SecurityHeaders);
    AsMapKeys(SecurityHeaders);
  }

  /** Every header outside the eight is in `after` exactly when it was in `before`, with the same values. */
  ghost predicate KeepsOtherHeaders(before: map<string, seq<string>>, after: map<string, seq<string>>)
  {
    forall name :: name !in Names(SecurityHeaders) ==>
      (name in after <==> name in before) && (name in before ==> after[name] == before[name])
  }

  /** Setting the eight headers keeps every other header. */
  lemma SetAllKeepsOthers(h: map<string, seq<string>>)
    ensures KeepsOtherHeaders(h, SetAll(h, SecurityHeaders))
  {
    forall name | name !in Names(SecurityHeaders)
      ensures name in SetAll(h, SecurityHeaders) <==> name in h
      ensures name in h ==> SetAll(h, SecurityHeaders)[name] == h[name]
    {
      OtherHeadersUnchanged(h, name);
    }
  }

  /** Setting the headers twice gives the same map as setting them once. */
  lemma SetAllIdempotent(h: map<string, seq<string>>, hs: seq<(string, string)>)
    ensures SetAll(SetAll(h, hs), hs) == SetAll(h, hs)
  {
    SetAllIsOverride(h, hs);
    SetAllIsOverride(SetAll(h, hs), hs);
    assert h + AsMap(hs) + AsMap(hs) == h + AsMap(hs);
  }

  /** Sets the eight headers on an HTTP response; any other response is left alone. */
  method SetSecurityHeaders(response: ServletResponse)
    modifies response`headers, response`ops
    ensures response.headers == if response.isHttp then SetAll(old(response.headers), SecurityHeaders) else old(response.headers)
    ensures response.ops == old(response.ops) + if response.isHttp then SecurityHeaderOps() else []
  {
    if response.isHttp {
      ghost var h0, ops0 := response.headers, response.ops;
      ZeroIsWrittenAsZero();
      response.SetIntHeader("X-XSS-Protection", 0);
      response.SetHeader("Strict-Transport-Security", "max-age=31536000; includeSubDomains");
      response.SetHeader("X-Frame-Options", "deny");
      response.SetHeader("X-Content-Type-Options", "nosniff");
      response.SetHeader("Content-Security-Policy", "default-src 'self'; frame-ancestors 'none';");
      response.SetHeader("Cache-Control", "no-cache, no-store, max-age=0, must-revalidate");
      response.SetHeader("Pragma", "no-cache");
      response.SetIntHeader("Expires", 0);
      SetAllEight(h0, SecurityHeaders);
      AppendEight(ops0,
        HeaderSet("X-XSS-Protection", "0"),
        HeaderSet("Strict-Transport-Security", "max-age=31536000; includeSubDomains"),
        HeaderSet("X-Frame-Options", "deny"),
        HeaderSet("X-Content-Type-Options", "nosniff"),
        HeaderSet("Content-Security-Policy", "default-src 'self'; frame-ancestors 'none';"),
        HeaderSet("Cache-Control", "no-cache, no-store, max-age=0, must-revalidate"),
        HeaderSet("Pragma", "no-cache"),
        HeaderSet("Expires", "0"));
    }
  }

  /** Logging eight calls one at a time is logging the list of the eight. */
  lemma AppendEight<T>(s: seq<T>, a: T, b: T, c: T, d: T, e: T, f: T, g: T, h: T)
    ensures s + [a] + [b] + [c] + [d] + [e] + [f] + [g] + [h] == s + [a, b, c, d, e, f, g, h]
  {
  }

  /** The integer 0 is written as the text "0". */
  lemma ZeroIsWrittenAsZero()
    ensures IntHeaderValue(0) == "0"
  {
  }

  /** Setting eight headers is eight map updates, in order. */
  lemma SetAllEight(h: map<string, seq<string>>, hs: seq<(string, string)>)
    requires |hs| == 8
    ensures SetAll(h, hs) ==
      h[hs[0].0 := [hs[0].1]][hs[1].0 := [hs[1].1]][hs[2].0 := [hs[2].1]][hs[3].0 := [hs[3].1]]
       [hs[4].0 := [hs[4].1]][hs[5].0 := [hs[5].1]][hs[6].0 := [hs[6].1]][hs[7].0 := [hs[7].1]]
  {
    var m := h;
    assert SetAll(h, hs) == SetAll(m[hs[0].0 := [hs[0].1]], hs[1..]);
    m := m[hs[0].0 := [hs[0].1]];
    assert SetAll(m, hs[1..]) == SetAll(m[hs[1].0 := [hs[1].1]], hs[2..]);
    m := m[hs[1].0 := [hs[1].1]];
    assert SetAll(m, hs[2..]) == SetAll(m[hs[2].0 := [hs[2].1]], hs[3..]);
    m := m[hs[2].0 := [hs[2].1]];
    assert SetAll(m, hs[3..]) == SetAll(m[hs[3].0 := [hs[3].1]], hs[4..]);
    m := m[hs[3].0 := [hs[3].1]];
    assert SetAll(m, hs[4..]) == SetAll(m[hs[4].0 := [hs[4].1]], hs[5..]);
    m := m[hs[4].0 := [hs[4].1]];
    assert SetAll(m, hs[5..]) == SetAll(m[hs[5].0 := [hs[5].1]], hs[6..]);
    m := m[hs[5].0 := [hs[5].1]];
    assert SetAll(m, hs[6..]) == SetAll(m[hs[6].0 := [hs[6].1]], hs[7..]);
    m := m[hs[6].0 := [hs[6].1]];
    assert SetAll(m, hs[7..]) == SetAll(m[hs[7].0 := [hs[7].1]], hs[8..]);
    m := m[hs[7].0 := [hs[7].1]];
    assert hs[8..] == [];
  }

  /** The calls the filter makes on an HTTP response, in order: one set per entry of `SecurityHeaders`. */
  function SecurityHeaderOps(): (ops: seq<ResponseOp>)
    ensures |ops| == |SecurityHeaders|
  {
    var hs := SecurityHeaders;
    [HeaderSet(hs[0].0, hs[0].1), HeaderSet(hs[1].0, hs[1].1), HeaderSet(hs[2].0, hs[2].1), HeaderSet(hs[3].0, hs[3].1),
     HeaderSet(hs[4].0, hs[4].1), HeaderSet(hs[5].0, hs[5].1), HeaderSet(hs[6].0, hs[6].1), HeaderSet(hs[7].0, hs[7].1)]
  }

  /**
   * The filter: headers first, then the chain continues exactly once with the
   * same request and response, whether or not the response is an HTTP one; the
   * chain already sees the headers set.
   */
  method DoFilter(request: Request, response: ServletResponse, chain: FilterChain)
    modifies response`headers, response`ops, chain
    ensures response.headers == if response.isHttp then SetAll(old(response.headers), SecurityHeaders) else old(response.headers)
    ensures response.ops == old(response.ops) + if response.isHttp then SecurityHeaderOps() else []
    ensures chain.calls == old(chain.calls) + [(request, response, response.headers)]
    ensures chain.calls[|old(chain.calls)|].2 ==
      if response.isHttp then SetAll(old(response.headers), SecurityHeaders) else old(response.headers)
  {
    SetSecurityHeaders(response);
    chain.DoFilter(request, response);
  }
}
