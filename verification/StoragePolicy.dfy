/** When a response may be stored: `shouldCache` and what it asks for, in the terms of sections 3 and 3.5
    of RFC 9111. */
module StoragePolicy {
  import opened CacheTypes
  import opened CacheControl

  /** The first rule that matches the URL, if one does. */
  datatype Rule = Rule(
    ignoreAuthorization: bool,
    ignoredParameters: seq<Text>,
    directConnect: bool,
    directConnectHeader: bool)

  /** What the proxy reads of a client's request; `ifNoneMatch` is the client's own precondition. */
  datatype Request = Request(
    method_: string,
    cacheControl: seq<string>,
    pragma: string,
    authorization: string,
    ifNoneMatch: Option<Text>,
    rule: Option<Rule>)

  datatype Response = Response(
    status: nat,
    etag: Text,
    cacheControl: seq<string>,
    vary: seq<string>,
    body: Blob)

  /** `strings.Contains`. */
  predicate Substring(s: string, t: string) {
    t <= s || (s != "" && Substring(s[1..], t))
  }

  ghost predicate Forbids(cacheControl: seq<string>) {
    Contains(cacheControl, "no-store") || Contains(cacheControl, "private")
  }

  ghost predicate AllowsAuthorized(cacheControl: seq<string>) {
    || Contains(cacheControl, "must-revalidate")
    || Contains(cacheControl, "public")
    || Contains(cacheControl, "s-maxage")
  }

  /** The storage policy. */
  ghost predicate MayStore(req: Request, resp: Response) {
    && req.rule.Some?
    && req.method_ == "GET" && resp.status == 200
    && !Forbids(req.cacheControl) && !Forbids(resp.cacheControl)
    && !Substring(req.pragma, "no-cache")
    && resp.vary == []
    && (req.authorization != "" ==> AllowsAuthorized(resp.cacheControl) || req.rule.value.ignoreAuthorization)
  }

  method IsCacheableCacheControl(values: seq<string>) returns (ok: bool)
    ensures ok <==> !Forbids(values)
  {
    var noStore := HeadersContainDirective(values, "no-store");
    if noStore {
      return false;
    }
    var private_ := HeadersContainDirective(values, "private");
    return !private_;
  }

  method CacheControlExplicitlyAllows(values: seq<string>) returns (ok: bool)
    ensures ok <==> AllowsAuthorized(values)
  {
    ok := HeadersContainDirective(values, "must-revalidate");
    if !ok {
      ok := HeadersContainDirective(values, "public");
    }
    if !ok {
      ok := HeadersContainDirective(values, "s-maxage");
    }
  }

  /** `shouldCache`. */
  method ShouldCache(req: Request, resp: Response) returns (ok: bool)
    ensures ok <==> MayStore(req, resp)
  {
    if req.rule.None? || req.method_ != "GET" {
      return false;
    }
    var requestAllows := IsCacheableCacheControl(req.cacheControl);
    if !requestAllows || Substring(req.pragma, "no-cache") {
      return false;
    }
    var responseAllows := IsCacheableCacheControl(resp.cacheControl);
    if !responseAllows {
      return false;
    }
    var explicitly := CacheControlExplicitlyAllows(resp.cacheControl);
    if req.authorization != "" && !explicitly && !req.rule.value.ignoreAuthorization {
      return false;
    }
    return |resp.vary| == 0 && resp.status == 200;
  }

  /** A field that is absent or a printed list of directives. */
  ghost predicate Prints(values: seq<string>, ds: seq<Directive>) {
    if ds == [] then values == [] else Plain(ds) && values == [Print(ds)]
  }

  lemma PrintedFieldsAreRead(values: seq<string>, ds: seq<Directive>, name: string)
    requires Prints(values, ds) && Ascii(name)
    ensures Contains(values, name) <==> Lists(ds, name)
  {
    if ds != [] {
      PrintedListsAreRead(ds, name);
    }
  }

  ghost predicate Occurs(s: string, t: string) {
    exists before, after :: s == before + t + after
  }

  /** The policy on fields as they are printed: exactly what sections 3 and 3.5 of RFC 9111 ask, and a rule, and no
      Vary. */
  lemma PolicyOnPrintedFields(req: Request, resp: Response, asked: seq<Directive>, answered: seq<Directive>)
    requires Prints(req.cacheControl, asked) && Prints(resp.cacheControl, answered)
    ensures MayStore(req, resp) <==>
            && req.rule.Some? && req.method_ == "GET" && resp.status == 200 && |resp.vary| == 0
            && !Lists(asked, "no-store") && !Lists(asked, "private")
            && !Lists(answered, "no-store") && !Lists(answered, "private")
            && !Occurs(req.pragma, "no-cache")
            && (|req.authorization| > 0 ==>
                  || Lists(answered, "must-revalidate") || Lists(answered, "public") || Lists(answered, "s-maxage")
                  || req.rule.value.ignoreAuthorization)
  {
    hide Contains, Prints, Lists, Substring;
    PrintedFieldsAreRead(req.cacheControl, asked, "no-store");
    PrintedFieldsAreRead(req.cacheControl, asked, "private");
    PrintedFieldsAreRead(resp.cacheControl, answered, "no-store");
    PrintedFieldsAreRead(resp.cacheControl, answered, "private");
    PrintedFieldsAreRead(resp.cacheControl, answered, "must-revalidate");
    PrintedFieldsAreRead(resp.cacheControl, answered, "public");
    PrintedFieldsAreRead(resp.cacheControl, answered, "s-maxage");
    SubstringExactly(req.pragma, "no-cache");
  }

  lemma {:induction false} SubstringExactly(s: string, t: string)
    ensures Substring(s, t) <==> Occurs(s, t)
  {
    if t <= s {
      assert s == "" + t + s[|t|..];
    } else if s != "" {
      SubstringExactly(s[1..], t);
      if Occurs(s[1..], t) {
        var before, after :| s[1..] == before + t + after;
        assert s == ([s[0]] + before) + t + after;
      }
      if Occurs(s, t) {
        var before, after :| s == before + t + after;
        assert before != "";
        assert s[1..] == before[1..] + t + after;
      }
    }
  }
}
