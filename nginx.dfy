/** The parts of the nginx host that the limit-method module touches: optional
    values, the `ngx_conf_merge_*` inheritance macros, and the request-time
    return codes and effects of an access-phase handler. */
module Nginx {

  datatype Option<+T> = None | Some(value: T)

  /** `NGX_CONF_UNSET` for an `ngx_flag_t` field. */
  const Unset: int := -1

  /** `ngx_conf_merge_value(conf, prev, default)`: a field left unset in the
      child takes the parent's value, and the default when both are unset. */
  function MergeValue(conf: int, prev: int, default: int): (r: int)
    ensures conf != Unset ==> r == conf
    ensures conf == Unset && prev != Unset ==> r == prev
    ensures conf == Unset && prev == Unset ==> r == default
  {
    if conf == Unset then (if prev == Unset then default else prev) else conf
  }

  /** `ngx_conf_merge_str_value(conf, prev, default)`. A string whose `data` is
      NULL is `None`; an explicitly configured empty string is `Some("")` and
      counts as set. */
  function MergeStr(conf: Option<string>, prev: Option<string>, default: string): (r: string)
    ensures conf.Some? ==> r == conf.value
    ensures conf.None? && prev.Some? ==> r == prev.value
    ensures conf.None? && prev.None? ==> r == default
  {
    match conf
    case Some(s) => s
    case None => match prev { case Some(p) => p case None => default }
  }

  /** `ngx_conf_merge_ptr_value(conf, prev, default)`; `None` is `NGX_CONF_UNSET_PTR`. */
  function MergePtr<T>(conf: Option<T>, prev: Option<T>, default: T): (r: T)
    ensures conf.Some? ==> r == conf.value
    ensures conf.None? && prev.Some? ==> r == prev.value
    ensures conf.None? && prev.None? ==> r == default
  {
    match conf
    case Some(v) => v
    case None => match prev { case Some(p) => p case None => default }
  }

  /** What an access-phase handler returns: `NGX_DECLINED`, `NGX_OK`, or
      whatever `ngx_http_named_location` returned for the redirect. */
  datatype Ret = Declined | Ok | NamedLocationRc

  /** Host calls a handler makes on the request, in the order it makes them:
      `ngx_http_named_location(r, target)` and `ngx_http_finalize_request(r, NGX_DONE)`. */
  datatype Effect = NamedLocation(target: string) | FinalizeDone

  /** The outcome of one handler run: its return value and the host calls it issued. */
  datatype Decision = Decision(ret: Ret, effects: seq<Effect>)

  /** The two host calls of a redirect to `target`, in the order the handlers issue them. */
  function RedirectEffects(target: string): (e: seq<Effect>)
    ensures |e| == 2 && e[0] == NamedLocation(target) && e[1] == FinalizeDone
  {
    [NamedLocation(target), FinalizeDone]
  }
}
