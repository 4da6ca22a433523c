# limit-method nginx module: a Dafny model of the method allow-list engine

The limit-method module is an nginx access-phase handler. For each request it
looks at the request's method and either lets the request through or
redirects it internally to a configured fallback location. This project
models its engine:

- the **method catalogue** (`MethodCatalog`, `RequestMethod.GetNumber`,
  `RequestMethodHash.GetRequestMethodNumber`). It is a closed mapping from the
  fifteen method names GET, HEAD, POST, PUT, DELETE, MKCOL, COPY, MOVE,
  OPTIONS, PROPFIND, PROPPATCH, LOCK, UNLOCK, PATCH and TRACE to their
  `NGX_HTTP_*` codes, with `NGX_HTTP_UNKNOWN` for everything else. The methods
  come from RFC 9110 section 9.3, RFC 4918 section 9 and RFC 5789 section 2.
  Names are compared with `ngx_strcasecmp`, that is, ignoring ASCII case,
  although RFC 9110 section 9.1 makes method names case-sensitive;
- the **code-set compiler and membership test** of
  `src/ngx_http_request_method.c` (`RequestMethod.NamesToNumbers`,
  `RequestMethod.ContainsNumber`);
- the **name-hash compiler** of `src/ngx_http_request_method_hash.c`. The
  walk over the configured names fills an `ngx_hash_keys_arrays_t`
  (`RequestMethodHash.HashKeysArrays`). The nginx hash built from it is
  abstracted as a `map<string, Code>` keyed by the configured spellings
  (`RequestMethodHash.Table`, `RequestMethodHash.CreateHash`), and the
  request-time lookup as an exact-key lookup in that map
  (`RequestMethodHash.GetValue`);
- the **per-location configuration and the access decision** of
  `src/ngx_http_limit_method_module.c` (`LimitMethod`) and of the older
  `src/limit_method_nginx_module.c` (`LimitMethodLegacy`). Creating and
  merging a location's configuration are a class with a constructor and a
  `Merge` method, proved against a pure merge function. A handler is a pure
  function returning a `Decision`: the handler's return value plus the host
  calls it makes (`ngx_http_named_location`, `ngx_http_finalize_request`), in
  order.

Strings are byte strings: each `char` of a Dafny `string` stands for one byte
of an `ngx_str_t` (a value below 256), so `|s|` is the `len` field and `s[k]`
is `data[k]`.

Host-library behaviour the engine relies on is modelled in `Nginx` and next to
its use:

- `ngx_conf_merge_value`, `ngx_conf_merge_str_value` and
  `ngx_conf_merge_ptr_value`;
- `ngx_strcasecmp` (`MethodCatalog.StrCaseEqFrom`): it folds ASCII capitals
  and compares byte by byte up to the first NUL. The catalogue constants are C
  string literals, and nginx stores each configuration argument with a
  terminating NUL, so past the end of a name the comparison reads a NUL;
- `ngx_hash_add_key` with `NGX_HASH_READONLY_KEY`: an exact key is appended
  unless the same key is already there (`NGX_BUSY`), and keys are not
  case-folded.

Behaviour of the code worth noting:

- `names_to_numbers` keeps an unrecognised name as an `NGX_HTTP_UNKNOWN`
  entry instead of dropping it (`RequestMethod.UnknownKeptIffUnrecognized`,
  `RequestMethod.TypoIsKept`).
- The current handler redirects even when the fallback is empty. It never
  declines a denied request (`LimitMethod.EmptyFallbackStillRedirects`).
- `ngx_hash_add_key` is called with `NGX_HASH_READONLY_KEY`, so the keys it
  collects are the configured spellings themselves. Under the assumed
  exact-key lookup (`RequestMethodHash.GetValue`), a request that spells a
  configured method in another case is not found, although the code set
  would contain its code (`RequestMethodHash.SpellingDivergence`). This is a
  consequence of that assumption and of the map abstraction of the hash, not
  of code shown here.
- `ngx_hash_init` may use at most `nelts + 5` buckets, where `nelts` counts
  every configured name, unrecognised names and duplicates included
  (`RequestMethodHash.InitFor`).
- The older handler never reads the request method, so every request to a
  location whose fallback has two or more bytes is redirected.

## Model

| member | source | states |
|---|---|---|
| `MethodCatalog.Name` | src/ngx_http_request_method.c:13-27 | the fifteen static `ngx_str_t` constants, repeated at src/ngx_http_request_method_hash.c:10-24: each is 3 to 9 upper-case ASCII letters, so none holds a NUL |
| `MethodCatalog.Lower` | src/ngx_http_request_method.c:74 | the folding `ngx_strcasecmp` applies: ASCII capitals become lower case, every other character is unchanged, and only NUL folds to NUL |
| `MethodCatalog.StrCaseEqFrom` | src/ngx_http_request_method.c:74 | the loop of `ngx_strcasecmp` from one offset on: fold both bytes, stop with "different" at the first difference and with "equal" at a common NUL, reading NUL past the end of a string |
| `MethodCatalog.CaseEq` | src/ngx_http_request_method.c:74 | `ngx_strcasecmp(a, b) == 0`, the comparison every branch of the catalogue chain makes |
| `MethodCatalog.CaseEqFolded` | src/ngx_http_request_method.c:74 | for strings without an embedded NUL, the comparison holds if and only if they have the same length and agree character by character after folding |
| `MethodCatalog.CaseEqReflexive` | src/ngx_http_request_method.c:74 | `ngx_strcasecmp` calls every string equal to itself |
| `MethodCatalog.CaseEqSymmetric` | src/ngx_http_request_method.c:74 | `ngx_strcasecmp` equality does not depend on the order of its arguments |
| `MethodCatalog.CaseEqTransitive` | src/ngx_http_request_method.c:74 | two strings `ngx_strcasecmp`-equal to a third are `ngx_strcasecmp`-equal to each other |
| `MethodCatalog.CaseEqSameLength` | src/ngx_http_request_method.c:74 | two NUL-free strings that compare equal have the same length |
| `MethodCatalog.NamesDistinct` | src/ngx_http_request_method.c:13-27 | no two of the fifteen catalogue constants compare equal |
| `MethodCatalog.MatchIsUnique` | src/ngx_http_request_method.c:74-103 | a name case-insensitively equal to two catalogue names names one method, so at most one branch of the chain can match |
| `RequestMethod.GetNumber` | src/ngx_http_request_method.c:71-106 | a recognised result is the code of a catalogue name equal to the input up to case; `NGX_HTTP_UNKNOWN` only when no catalogue name matches |
| `RequestMethod.GetNumberUnknownIff` | src/ngx_http_request_method.c:74-105 | the result is `NGX_HTTP_UNKNOWN` if and only if the name matches no catalogue name |
| `RequestMethod.GetNumberMatchesOnly` | src/ngx_http_request_method.c:74-103 | for each recognised code c, the name resolves to c if and only if it equals c's name up to case |
| `RequestMethod.GetNumberOfName` | src/ngx_http_request_method.c:74-103 | each of the fifteen names resolves to its own code, so the codes are distinct and none is `NGX_HTTP_UNKNOWN` |
| `RequestMethod.CaseInsensitive` | src/ngx_http_request_method.c:74-103 | names that `ngx_strcasecmp` calls equal resolve to the same code |
| `RequestMethod.GetNumberIgnoresCase` | src/ngx_http_request_method.c:74-95 | "get", "GET" and "Get" give `NGX_HTTP_GET`, and "propPatch" gives `NGX_HTTP_PROPPATCH` |
| `RequestMethod.GetNumberStopsAtNul` | src/ngx_http_request_method.c:74-75 | a name with an embedded NUL, `"GET\0X"`, resolves by the text before the NUL, to `NGX_HTTP_GET` |
| `RequestMethod.GettUnrecognized` | src/ngx_http_request_method.c:104-105 | the typo "GETT" matches no catalogue name and gives `NGX_HTTP_UNKNOWN` |
| `RequestMethod.EmptyUnrecognized` | src/ngx_http_request_method.c:104-105 | the empty name matches no catalogue name and gives `NGX_HTTP_UNKNOWN` |
| `RequestMethod.NumbersOf` | src/ngx_http_request_method.c:53-66 | the array the loop builds when no push fails: the code of each configured name appended in order; its properties are the `NumbersOf*` lemmas |
| `RequestMethod.NumbersOfLength` | src/ngx_http_request_method.c:53-66 | the compiled array has one entry per configured name: nothing is dropped |
| `RequestMethod.NumbersOfAt` | src/ngx_http_request_method.c:53-66 | each entry is the code of the configured name in the same position, unknown names included |
| `RequestMethod.NumbersOfAll` | src/ngx_http_request_method.c:53-66 | the same, for every position at once |
| `RequestMethod.NumbersOfSnoc` | src/ngx_http_request_method.c:55-65 | one more loop iteration appends the code of the next name |
| `RequestMethod.NamesToNumbers` | src/ngx_http_request_method.c:47-69 | NULL exactly when the push at some index i ≥ 20 failed; otherwise the whole order-preserving code array; no push within the initial 20 elements can fail |
| `RequestMethod.ContainsNumber` | src/ngx_http_request_method.c:31-45 | 1 if and only if some element equals the queried code, 0 otherwise, including for an empty array |
| `RequestMethod.InNumbersOf` | src/ngx_http_request_method.c:53-66 | a code is in the compiled array if and only if some configured name resolves to it |
| `RequestMethod.CodeSetMembership` | src/ngx_http_request_method.c:32-69 | a recognised code is in the compiled array if and only if some configured name equals its name up to case |
| `RequestMethod.UnknownKeptIffUnrecognized` | src/ngx_http_request_method.c:32-69 | `NGX_HTTP_UNKNOWN` is in the compiled array if and only if some configured name is unrecognised |
| `RequestMethod.TypoIsKept` | src/ngx_http_request_method.c:57-65 | compiling ["GET", "GETT"] gives [`NGX_HTTP_GET`, `NGX_HTTP_UNKNOWN`]: the typo is kept, not dropped |
| `RequestMethodHash.GetRequestMethodNumber` | src/ngx_http_request_method_hash.c:67-102 | equal, on every input, to `request_method_get_number`, so every property of that catalogue holds of this copy too |
| `RequestMethodHash.AddedKey` | src/ngx_http_request_method_hash.c:118 | after `ngx_hash_add_key` the key is present, the earlier keys are kept in order, and the array grew by one exactly when the key was not already there |
| `RequestMethodHash.HashKeysArrays.constructor` | src/ngx_http_request_method_hash.c:54-65 | a new key array holds no keys |
| `RequestMethodHash.HashKeysArrays.AddKey` | src/ngx_http_request_method_hash.c:118 | `NGX_BUSY` exactly when the identical key is already present, which leaves the array unchanged; otherwise the key and value are appended |
| `RequestMethodHash.CreateRequestMethodKeys` | src/ngx_http_request_method_hash.c:104-122 | the keys are those of one in-order walk over all configured names: unknown names are skipped, and every other name is offered to `ngx_hash_add_key`, whatever the previous call returned |
| `RequestMethodHash.Walked` | src/ngx_http_request_method_hash.c:112-118 | one iteration of the walk keeps the earlier keys, and afterwards the name is a key exactly when it resolves to a known code or already was one |
| `RequestMethodHash.KeysOf` | src/ngx_http_request_method_hash.c:110-119 | the keys of one in-order walk over all configured names; its properties are the `KeysOf*` lemmas |
| `RequestMethodHash.KeysOfSnoc` | src/ngx_http_request_method_hash.c:110-119 | one more configured name extends the walk by exactly one step |
| `RequestMethodHash.KeysOfValues` | src/ngx_http_request_method_hash.c:113-118 | no key carries `NGX_HTTP_UNKNOWN`; each key carries exactly the code its own name resolves to |
| `RequestMethodHash.KeysOfDomain` | src/ngx_http_request_method_hash.c:112-118 | a string is a key if and only if it is configured and resolves to a known code |
| `RequestMethodHash.KeysOfDistinct` | src/ngx_http_request_method_hash.c:118 | no key appears twice |
| `RequestMethodHash.KeysOfPrefix` | src/ngx_http_request_method_hash.c:110-119 | the keys from a prefix of the configuration are a prefix of all the keys: the walk keeps configuration order |
| `RequestMethodHash.Table` | src/ngx_http_request_method_hash.c:49 | the exact-spelling map that abstracts the hash `ngx_hash_init` builds, the first of equal keys winning (see "## Left out") |
| `RequestMethodHash.TableOfDistinct` | src/ngx_http_request_method_hash.c:49 | a table built from distinct keys holds each key with its own value and nothing else |
| `RequestMethodHash.TableOfKeys` | src/ngx_http_request_method_hash.c:104-122 | the exact-spelling map that abstracts the compiled hash holds exactly the configured names that resolve to a known code, each mapped to that code |
| `RequestMethodHash.SpellingsAreSeparateKeys` | src/ngx_http_request_method_hash.c:112-118 | keys are not case-folded: two spellings of one method give two keys with the same code, and a repeated spelling adds nothing |
| `RequestMethodHash.InitFor` | src/ngx_http_request_method_hash.c:39 | the hash is allowed `nelts + 5` buckets |
| `RequestMethodHash.CreateHash` | src/ngx_http_request_method_hash.c:30-52 | `ngx_hash_init` gets `max_size = nelts + 5` and the walk's keys; the hash is returned whether or not `ngx_hash_init` succeeds, holding the table only when it succeeded |
| `RequestMethodHash.MethodHashOf` | src/ngx_http_request_method_hash.c:30-52 | the hash `create_hash` returns as a value: the table of the walk's keys when `ngx_hash_init` accepts them with `max_size = nelts + 5`, storage never filled in otherwise |
| `RequestMethodHash.GetValue` | include/ngx_http_request_method_hash.h:15 | assumed contract of the lookup whose body is not part of this model: the value stored under exactly that key, else `NGX_HTTP_UNKNOWN` |
| `RequestMethodHash.ClassifyByName` | src/ngx_http_request_method_hash.c:104-122 | under the assumed exact-key lookup, a request name is found, with its own code, if and only if that exact string was configured and is a catalogue name |
| `RequestMethodHash.HashFoundImpliesInCodeSet` | src/ngx_http_request_method_hash.c:112-118 | whatever the hash finds has its code in the code set compiled from the same names |
| `RequestMethodHash.SpellingDivergence` | src/ngx_http_request_method_hash.c:112-118 | under the assumed exact-key lookup, a differently-cased spelling of a configured method is in the code set but not found in the hash |
| `Nginx.MergeValue` | src/ngx_http_limit_method_module.c:139 | the child's flag if set, else the parent's, else the default |
| `Nginx.MergeStr` | src/ngx_http_limit_method_module.c:140 | the child's string if set, else the parent's, else the default |
| `Nginx.MergePtr` | src/ngx_http_limit_method_module.c:141 | the child's pointer if set, else the parent's, else the default |
| `Nginx.RedirectEffects` | src/ngx_http_limit_method_module.c:104-105 | a redirect is the named-location call followed by one finalize with `NGX_DONE` |
| `LimitMethod.MergeConf` | src/ngx_http_limit_method_module.c:130-146 | `enabled`, `fallback` and `methods` are each the child's, else the parent's, else 0, "" and an empty array; the hash is rebuilt from the merged `methods` |
| `LimitMethod.LocConf.constructor` | src/ngx_http_limit_method_module.c:112-128 | `methods`, `method_hash` and `enabled` start UNSET and `fallback` starts as the NULL string |
| `LimitMethod.LocConf.Merge` | src/ngx_http_limit_method_module.c:130-146 | the configuration after merging in place is the merge of its old value with the parent's |
| `LimitMethod.Readable` | src/ngx_http_limit_method_module.c:95 | what the `*lmcf->method_hash` dereference needs: when enabled, a hash that `ngx_hash_init` filled in |
| `LimitMethod.Handler` | src/ngx_http_limit_method_module.c:81-110 | disabled: declined with no host call; enabled: `NGX_OK` if and only if the lookup finds the name, otherwise named location to `fallback` then finalize, returning the named-location result |
| `LimitMethod.FinalizeOnceAfterRedirect` | src/ngx_http_limit_method_module.c:102-107 | the request is finalized exactly once on the redirect path, never otherwise, and only after the redirect |
| `LimitMethod.EmptyFallbackStillRedirects` | src/ngx_http_limit_method_module.c:102-107 | with an empty fallback, a name the hash lacks is still redirected, to "" |
| `LimitMethod.MergedIsComplete` | src/ngx_http_limit_method_module.c:139-143 | after a merge no field is unset |
| `LimitMethod.MergeIdempotent` | src/ngx_http_limit_method_module.c:139-143 | merging a merged configuration again, with any parent, changes nothing |
| `LimitMethod.FreshChildInherits` | src/ngx_http_limit_method_module.c:139-143 | a location that sets nothing ends up with exactly its merged parent's configuration |
| `LimitMethod.AllowedIffConfigured` | src/ngx_http_limit_method_module.c:95-109 | under the assumed exact-key lookup, in an enabled location with a built hash, a request gets `NGX_OK` if and only if its method name is a configured catalogue name spelled the same way; every other request is redirected to the fallback |
| `LimitMethod.EmptyAllowListRedirectsAll` | src/ngx_http_limit_method_module.c:141 | an enabled location without configured methods redirects every request |
| `LimitMethod.ReadOnlyLocation` | src/ngx_http_limit_method_module.c:95-109 | with GET and HEAD allowed, PUT is redirected to the fallback and GET passes with `NGX_OK` |
| `LimitMethod.TypoAllowsNothing` | src/ngx_http_limit_method_module.c:95-109 | with only the typo "GETT" allowed, every request is redirected |
| `LimitMethodLegacy.Len` | src/limit_method_nginx_module.c:69 | `fallback.len`, 0 for the unset string `{0, NULL}` |
| `LimitMethodLegacy.Handler` | src/limit_method_nginx_module.c:63-78 | declined with no host call if and only if `fallback.len <= 1`; otherwise named location to the fallback, one finalize, and the named-location result; the request method is not an input |
| `LimitMethodLegacy.MergeFallback` | src/limit_method_nginx_module.c:101-110 | the merged fallback is always set: the child's, else the parent's, else "" |
| `LimitMethodLegacy.LocConf.constructor` | src/limit_method_nginx_module.c:81-98 | a new configuration has the NULL fallback, of length 0 |
| `LimitMethodLegacy.LocConf.Merge` | src/limit_method_nginx_module.c:101-110 | merging in place leaves the merged fallback |
| `LimitMethodLegacy.NoFallbackDeclines` | src/limit_method_nginx_module.c:69-71 | a location with no fallback of its own or inherited declines every request |
| `LimitMethodLegacy.FallbackLengthThreshold` | src/limit_method_nginx_module.c:69-77 | a fallback of at most one byte declines; from two bytes on, the request is redirected and finalized once |

## Left out

- `LimitMethodLegacy.Handler`: only strings whose `char`s are all below 256 stand for an `ngx_str_t`. Text from a UTF-8 configuration file appears as its bytes: a fallback "é" is the two-`char` string `"\u00C3\u00A9"`, which is redirected like any fallback of two or more bytes, not the one-`char` string `"\u00E9"`. A `char` of value 256 or more has no counterpart, and results about strings holding one say nothing about nginx. The same holds for every other member that takes a `string`.
- The numeric values of the `NGX_HTTP_*` constants come from nginx headers that are not part of this model. Only their distinctness matters, and `Code` captures that.
- `RequestMethodHash.GetValue`: the body of `ngx_http_request_method_get_value` is not part of this model. Its contract is an assumption: an exact-key lookup that gives `NGX_HTTP_UNKNOWN` when the key is absent. How the real function hashes and folds the request's name is not modelled, so every property stated through `GetValue` holds under this assumption only.
- `RequestMethodHash.Table`: the map keeps each collected key with its exact spelling. The real `ngx_hash_init` stores each element name lower-cased (`ngx_strlow`) and places it by the `key_hash` that `ngx_hash_add_key` computed on the unfolded key. The map therefore does not capture how the real table answers a lookup; together with `GetValue` it is an abstraction of the table, not a model of its layout.
- nginx hash internals are abstracted as a map: `ngx_hash_init` bucket layout, `bucket_size = ngx_align(64, ngx_cacheline_size)`, `ngx_hash_keys_array_init` and the key-length limit of `ngx_hash_add_key`. Whether `ngx_hash_init` succeeds is a parameter (`hashInit`).
- `LimitMethod.Handler` requires a filled-in hash when enabled. Reading a hash whose `ngx_hash_init` failed reads uninitialised pool memory, and the model does not give that a meaning.
- Pool allocation failures are left out, except the explicit NULL return of `names_to_numbers`. This covers a failed `ngx_pcalloc` in `create_loc_conf`, a failed `ngx_array_create` or `ngx_palloc`, and the error result of `ngx_hash_keys_array_init`. The double `ngx_array_create`/`ngx_array_init` of one array is also left out.
- `RequestMethod.NamesToNumbers`: the outcome of the push at each index i ≥ 20 is a parameter (`pushOk(i)`), since it depends on the pool. nginx's `ngx_array_push` allocates only when the array is full. Depending on the pool it then grows the array in place by one element or doubles it, so the model admits failures at indices where nginx's push cannot fail.
- Host calls are recorded, not performed: `ngx_http_named_location`, `ngx_http_finalize_request` and `ngx_http_get_module_loc_conf`. The handler receives its location's configuration and the request's method name as arguments. The named-location result is the opaque `NamedLocationRc`.
- Module, context and command tables, and the `*_init` functions that register the handler in the access phase, are nginx plumbing.
- The debug logging in the handler (src/ngx_http_limit_method_module.c:92-100) is left out.
- src/ngx_request_method_set.c holds only declarations, and include/ngx_http_request_method.h and include/ngx_http_request_method_hash.h only prototypes.
- The code does not implement configuration reload or sharing between worker processes.
