/** The older access-phase module of src/limit_method_nginx_module.c. Its
    only setting is the `limit_method` fallback location; its decision never
    looks at the request, so every request to a location with a fallback is
    redirected there. */
module LimitMethodLegacy {
  import opened Nginx

  /** `fallback.len` of an `ngx_str_t`; the unset string `{0, NULL}` has length 0. */
  function Len(s: Option<string>): nat
  {
    match s
    case Some(t) => |t|
    case None => 0
  }

  /** `ngx_http_limit_method_handler`: a fallback of at most one byte
      declines; a longer one redirects there and finalizes the request. The
      request itself, including its method, is not an input. */
  function Handler(fallback: Option<string>): (d: Decision)
    ensures d.ret == Declined <==> Len(fallback) <= 1
    ensures d.ret == Declined ==> d.effects == []
    ensures d.ret != Declined ==>
      fallback.Some? && d == Decision(NamedLocationRc, RedirectEffects(fallback.value))
  {
    if Len(fallback) <= 1 then Decision(Declined, [])
    else Decision(NamedLocationRc, RedirectEffects(fallback.value))
  }

  /** `ngx_http_limit_method_merge_loc_conf` on values: the child's fallback,
      else the parent's, else "". */
  function MergeFallback(conf: Option<string>, prev: Option<string>): (r: Option<string>)
    ensures r.Some?
    ensures conf.Some? ==> r == conf
    ensures conf.None? ==> r == (if prev.Some? then prev else Some(""))
  {
    Some(MergeStr(conf, prev, ""))
  }

  /** `ngx_http_limit_method_loc_conf_t` of the older module. */
  class LocConf {
    var fallback: Option<string>

    /** `ngx_http_limit_method_create_loc_conf`: `ngx_pcalloc` leaves
        `fallback` as `{0, NULL}`. */
    constructor ()
      ensures fallback == None && Len(fallback) == 0
    {
      fallback := None;
    }

    /** `ngx_http_limit_method_merge_loc_conf(cf, prev, this)`. */
    method Merge(prev: LocConf)
      modifies this
      ensures fallback == MergeFallback(old(fallback), old(prev.fallback))
    {
      fallback := Some(MergeStr(fallback, prev.fallback, ""));
    }
  }

  /** A location with neither its own nor an inherited fallback declines every
      request: the merged fallback is "" and a fresh one has length 0. */
  lemma NoFallbackDeclines(conf: Option<string>, prev: Option<string>)
    requires Len(conf) == 0 && Len(prev) == 0
    ensures Handler(MergeFallback(conf, prev)) == Decision(Declined, [])
    ensures Handler(None) == Decision(Declined, [])
  {
  }

  /** A one-byte fallback such as "@" is ignored; from two bytes on,
      every request is redirected and finalized exactly once. */
  lemma FallbackLengthThreshold(target: string)
    ensures |target| <= 1 ==> Handler(Some(target)) == Decision(Declined, [])
    ensures |target| >= 2 ==> Handler(Some(target)) == Decision(NamedLocationRc, [NamedLocation(target), FinalizeDone])
  {
  }
}
