/** The access-phase module of src/ngx_http_limit_method_module.c: its
    per-location configuration (`enabled`, `fallback`, `methods`,
    `method_hash`), how a location inherits it from the enclosing one, and
    the per-request decision. The host calls `ngx_http_named_location` and
    `ngx_http_finalize_request` are recorded as effects of the decision. */
module LimitMethod {
  import opened Nginx
  import opened MethodCatalog
  import RequestMethod
  import opened RequestMethodHash

  /** A location's `ngx_http_limit_method_loc_conf_t` as a value. `None` is an
      unset field: `NGX_CONF_UNSET_PTR` for the two pointers, a `fallback`
      whose data is NULL; `enabled` uses `NGX_CONF_UNSET`. */
  datatype Conf = Conf(
    enabled: int,
    fallback: Option<string>,
    methods: Option<seq<string>>,
    methodHash: Option<MethodHash>)

  /** The text of an `ngx_str_t`; the unset string `{0, NULL}` reads as "". */
  function Text(s: Option<string>): string
  {
    match s
    case Some(t) => t
    case None => ""
  }

  /** `ngx_http_limit_method_merge_loc_conf` on values: `enabled` is the
      child's, else the parent's, else 0; `fallback` the child's, else the
      parent's, else ""; `methods` the child's, else the parent's, else an empty
      array; the hash is always rebuilt from the merged `methods`. */
  function MergeConf(conf: Conf, prev: Conf, hashInit: (HashInit, seq<HashKey>) -> bool): (r: Conf)
    ensures r.enabled == (if conf.enabled != Unset then conf.enabled
                          else if prev.enabled != Unset then prev.enabled else 0)
    ensures r.fallback == Some(if conf.fallback.Some? then conf.fallback.value
                               else if prev.fallback.Some? then prev.fallback.value else "")
    ensures r.methods == Some(if conf.methods.Some? then conf.methods.value
                              else if prev.methods.Some? then prev.methods.value else [])
    ensures r.methodHash == Some(MethodHashOf(r.methods.value, hashInit))
  {
    var methods := MergePtr(conf.methods, prev.methods, []);
    Conf(MergeValue(conf.enabled, prev.enabled, 0),
         Some(MergeStr(conf.fallback, prev.fallback, "")),
         Some(methods),
         Some(MethodHashOf(methods, hashInit)))
  }

  /** `ngx_http_limit_method_loc_conf_t`, which nginx allocates per location
      and then merges in place with the enclosing location's. */
  class LocConf {
    var enabled: int
    var fallback: Option<string>
    var methods: Option<seq<string>>
    var methodHash: Option<MethodHash>

    function Value(): Conf
      reads this
    {
      Conf(enabled, fallback, methods, methodHash)
    }

    /** `ngx_http_limit_method_create_loc_conf`: `ngx_pcalloc` leaves
        `fallback` as `{0, NULL}`, and `methods`, `method_hash` and `enabled`
        are set to their UNSET markers. */
    constructor ()
      ensures Value() == Conf(Unset, None, None, None)
    {
      enabled := Unset;
      fallback := None;
      methods := None;
      methodHash := None;
    }

    /** `ngx_http_limit_method_merge_loc_conf(cf, prev, this)`: the three
        `ngx_conf_merge_*` steps, then the hash built from the merged names. */
    method Merge(prev: LocConf, hashInit: (HashInit, seq<HashKey>) -> bool)
      modifies this
      ensures Value() == MergeConf(old(Value()), old(prev.Value()), hashInit)
    {
      var p := prev.Value();
      enabled := MergeValue(enabled, p.enabled, 0);
      fallback := Some(MergeStr(fallback, p.fallback, ""));
      methods := Some(MergePtr(methods, p.methods, []));
      var hash := CreateHash(methods.value, hashInit);
      methodHash := Some(hash);
    }
  }

  /** What the handler can dereference: when enabled it reads
      `*lmcf->method_hash`, which must be a hash that `ngx_hash_init` filled in. */
  predicate Readable(conf: Conf)
  {
    conf.enabled != 0 ==> conf.methodHash.Some? && conf.methodHash.value.Built?
  }

  /** `ngx_http_limit_method_handler` for a request whose method name is
      `methodName`: disabled locations decline; otherwise the name is looked
      up in the location's hash, and a name the hash does not hold redirects to
      `fallback` and finalizes the request, while any other name is let
      through with `NGX_OK`. */
  function Handler(conf: Conf, methodName: string): (d: Decision)
    requires Readable(conf)
    ensures conf.enabled == 0 ==> d == Decision(Declined, [])
    ensures conf.enabled != 0 ==>
      (d.ret == Ok <==> GetValue(conf.methodHash.value, methodName) != Unknown)
    ensures d.ret == NamedLocationRc <==>
      conf.enabled != 0 && GetValue(conf.methodHash.value, methodName) == Unknown
    ensures d.ret == NamedLocationRc ==> d.effects == RedirectEffects(Text(conf.fallback))
    ensures d.ret != NamedLocationRc ==> d.effects == []
  {
    if conf.enabled == 0 then Decision(Declined, [])
    else
      var code := GetValue(conf.methodHash.value, methodName);
      if code == Unknown then Decision(NamedLocationRc, RedirectEffects(Text(conf.fallback)))
      else Decision(Ok, [])
  }

  /** How many times the request is finalized in `effects`. */
  function Finalizations(effects: seq<Effect>): nat
  {
    if effects == [] then 0
    else Finalizations(effects[..|effects| - 1]) + (if effects[|effects| - 1] == FinalizeDone then 1 else 0)
  }

  /** The request is finalized exactly once on the redirect path and never
      otherwise, and only after the redirect was issued. */
  lemma FinalizeOnceAfterRedirect(conf: Conf, methodName: string)
    requires Readable(conf)
    ensures Finalizations(Handler(conf, methodName).effects) == (if Handler(conf, methodName).ret == NamedLocationRc then 1 else 0)
    ensures forall i :: 0 <= i < |Handler(conf, methodName).effects| && Handler(conf, methodName).effects[i] == FinalizeDone ==>
      exists j :: 0 <= j < i && Handler(conf, methodName).effects[j].NamedLocation?
  {
    var e := Handler(conf, methodName).effects;
    if e != [] {
      var head := e[..1];
      assert head[..0] == [];
      assert e[..|e| - 1] == head;
      assert Finalizations(head) == 0;
    }
  }

  /** The redirect is attempted even when no fallback was configured: the
      handler never tests whether `fallback` is empty. */
  lemma EmptyFallbackStillRedirects(conf: Conf, methodName: string)
    requires Readable(conf) && conf.enabled != 0 && Text(conf.fallback) == ""
    requires GetValue(conf.methodHash.value, methodName) == Unknown
    ensures Handler(conf, methodName) == Decision(NamedLocationRc, [NamedLocation(""), FinalizeDone])
  {
  }

  /** After a merge every field is set, and the hash is the one compiled from
      the merged `methods`. */
  lemma MergedIsComplete(conf: Conf, prev: Conf, hashInit: (HashInit, seq<HashKey>) -> bool)
    ensures var r := MergeConf(conf, prev, hashInit);
      r.enabled != Unset && r.fallback.Some? && r.methods.Some? && r.methodHash.Some?
  {
  }

  /** Merging again changes nothing: every field is already set, so the
      second merge keeps it, and the hash is rebuilt from the same names. */
  lemma MergeIdempotent(conf: Conf, prev: Conf, other: Conf, hashInit: (HashInit, seq<HashKey>) -> bool)
    ensures MergeConf(MergeConf(conf, prev, hashInit), other, hashInit) == MergeConf(conf, prev, hashInit)
  {
  }

  /** A location that sets nothing itself behaves like the enclosing
      location it inherits from. */
  lemma FreshChildInherits(prev: Conf, hashInit: (HashInit, seq<HashKey>) -> bool)
    requires prev.enabled != Unset && prev.fallback.Some? && prev.methods.Some?
    requires prev.methodHash == Some(MethodHashOf(prev.methods.value, hashInit))
    ensures MergeConf(Conf(Unset, None, None, None), prev, hashInit) == prev
  {
  }

  /** End to end, under the assumed exact-key lookup `GetValue`: in a merged,
      enabled location whose hash was built, the request passes with `NGX_OK`
      exactly when its method name is one of the configured names, spelled the
      same, and a catalogue name; every other request is redirected to the
      fallback. */
  lemma AllowedIffConfigured(conf: Conf, prev: Conf, hashInit: (HashInit, seq<HashKey>) -> bool, methodName: string)
    requires MergeConf(conf, prev, hashInit).enabled != 0
    requires MergeConf(conf, prev, hashInit).methodHash.value.Built?
    ensures var r := MergeConf(conf, prev, hashInit);
      Readable(r) &&
      (Handler(r, methodName).ret == Ok <==>
        methodName in r.methods.value && RequestMethod.GetNumber(methodName) != Unknown) &&
      (Handler(r, methodName).ret != Ok ==>
        Handler(r, methodName) == Decision(NamedLocationRc, RedirectEffects(Text(r.fallback))))
  {
    var r := MergeConf(conf, prev, hashInit);
    ClassifyByName(r.methods.value, hashInit, methodName);
  }

  /** An enabled location with no methods configured redirects every request. */
  lemma EmptyAllowListRedirectsAll(conf: Conf, prev: Conf, hashInit: (HashInit, seq<HashKey>) -> bool, methodName: string)
    requires MergeConf(conf, prev, hashInit).enabled != 0
    requires MergeConf(conf, prev, hashInit).methods == Some([])
    requires MergeConf(conf, prev, hashInit).methodHash.value.Built?
    ensures Handler(MergeConf(conf, prev, hashInit), methodName).ret == NamedLocationRc
  {
    AllowedIffConfigured(conf, prev, hashInit, methodName);
  }

  /** A read-only location: with `GET` and `HEAD` allowed and a fallback
      configured, `PUT` is redirected to the fallback and `GET` passes. */
  lemma ReadOnlyLocation(hashInit: (HashInit, seq<HashKey>) -> bool)
    requires MethodHashOf(["GET", "HEAD"], hashInit).Built?
    ensures var r := MergeConf(Conf(1, Some("@readonly"), Some(["GET", "HEAD"]), None), Conf(Unset, None, None, None), hashInit);
      Readable(r) &&
      Handler(r, "PUT") == Decision(NamedLocationRc, [NamedLocation("@readonly"), FinalizeDone]) &&
      Handler(r, "GET") == Decision(Ok, [])
  {
    var child, top := Conf(1, Some("@readonly"), Some(["GET", "HEAD"]), None), Conf(Unset, None, None, None);
    RequestMethod.GetNumberOfName(Get);
    AllowedIffConfigured(child, top, hashInit, "PUT");
    AllowedIffConfigured(child, top, hashInit, "GET");
  }

  /** A location whose only allowed method is the typo "GETT" redirects every
      request: the typo never becomes a key, so nothing is let through. */
  lemma TypoAllowsNothing(hashInit: (HashInit, seq<HashKey>) -> bool, methodName: string)
    requires MethodHashOf(["GETT"], hashInit).Built?
    ensures var r := MergeConf(Conf(1, Some("@deny"), Some(["GETT"]), None), Conf(Unset, None, None, None), hashInit);
      Readable(r) && Handler(r, methodName) == Decision(NamedLocationRc, [NamedLocation("@deny"), FinalizeDone])
  {
    RequestMethod.GettUnrecognized();
    AllowedIffConfigured(Conf(1, Some("@deny"), Some(["GETT"]), None), Conf(Unset, None, None, None), hashInit, methodName);
  }
}
