/** The name-hash half of the allow-list engine
    (src/ngx_http_request_method_hash.c): the second copy of the catalogue,
    the walk that turns configured names into hash keys, and the hash built
    from those keys. nginx's `ngx_hash_t` is abstracted as a map from the
    exact key string to its method code. */
module RequestMethodHash {
  import opened Nginx
  import opened MethodCatalog
  import RequestMethod

  /** `get_request_method_number`: the same fifteen case-insensitive
      comparisons, in the same order, as `request_method_get_number`. */
  function GetRequestMethodNumber(name: string): (r: Code)
    ensures r == RequestMethod.GetNumber(name)
  {
    if CaseEq(Name(Get), name) then Get
    else if CaseEq(Name(Head), name) then Head
    else if CaseEq(Name(Post), name) then Post
    else if CaseEq(Name(Put), name) then Put
    else if CaseEq(Name(Delete), name) then Delete
    else if CaseEq(Name(Mkcol), name) then Mkcol
    else if CaseEq(Name(Copy), name) then Copy
    else if CaseEq(Name(Move), name) then Move
    else if CaseEq(Name(Options), name) then Options
    else if CaseEq(Name(Propfind), name) then Propfind
    else if CaseEq(Name(Proppatch), name) then Proppatch
    else if CaseEq(Name(Lock), name) then Lock
    else if CaseEq(Name(Unlock), name) then Unlock
    else if CaseEq(Name(Patch), name) then Patch
    else if CaseEq(Name(Trace), name) then Trace
    else Unknown
  }

  /** One element of the `keys` array of an `ngx_hash_keys_arrays_t`: the key
      string and the value stored with it (the method code cast to `void *`). */
  datatype HashKey = HashKey(key: string, value: Code)

  /** Some element of `keys` carries exactly the key `name`. */
  predicate HasKey(keys: seq<HashKey>, name: string)
  {
    exists i :: 0 <= i < |keys| && keys[i].key == name
  }

  /** What `ngx_hash_add_key(ha, key, value, NGX_HASH_READONLY_KEY)` leaves in
      `ha->keys`: the key is appended unless an identical key is already there
      (`NGX_BUSY`). With `NGX_HASH_READONLY_KEY` the key is not folded. */
  function AddedKey(keys: seq<HashKey>, key: string, value: Code): (r: seq<HashKey>)
    ensures HasKey(r, key)
    ensures keys <= r && |r| <= |keys| + 1
    ensures |r| == |keys| + 1 <==> !HasKey(keys, key)
  {
    if HasKey(keys, key) then keys
    else
      var r := keys + [HashKey(key, value)];
      assert r[|keys|].key == key;
      r
  }

  /** Return codes of `ngx_hash_add_key` for an exact key. */
  datatype AddKeyRc = AddOk | AddBusy

  /** `ngx_hash_keys_arrays_t`, of which the module uses only the exact-key
      array `keys`. */
  class HashKeysArrays {
    var keys: seq<HashKey>

    /** `init_request_method_keys`: a key array with nothing in it yet. */
    constructor ()
      ensures keys == []
    {
      keys := [];
    }

    /** `ngx_hash_add_key(this, key, value, NGX_HASH_READONLY_KEY)`: refuses a
        key that is already present with `NGX_BUSY`, appends it otherwise. */
    method AddKey(key: string, value: Code) returns (rc: AddKeyRc)
      modifies this
      ensures rc == AddBusy <==> HasKey(old(keys), key)
      ensures keys == AddedKey(old(keys), key, value)
    {
      rc := AddOk;
      for i := 0 to |keys|
        invariant forall j :: 0 <= j < i ==> keys[j].key != key
      {
        if keys[i].key == key {
          rc := AddBusy;
          return;
        }
      }
      keys := keys + [HashKey(key, value)];
    }
  }

  /** One step of the walk over the configured names: a name that resolves
      to `NGX_HTTP_UNKNOWN` is skipped, any other is offered as a key. */
  function Walked(keys: seq<HashKey>, name: string): (r: seq<HashKey>)
    ensures keys <= r
    ensures HasKey(r, name) <==> GetRequestMethodNumber(name) != Unknown || HasKey(keys, name)
  {
    var code := GetRequestMethodNumber(name);
    if code == Unknown then keys else AddedKey(keys, name, code)
  }

  /** The keys `create_request_method_keys` collects from `methods`, walking
      them once from first to last. */
  function KeysOf(methods: seq<string>): seq<HashKey>
  {
    if methods == [] then [] else Walked(KeysOf(methods[..|methods| - 1]), methods[|methods| - 1])
  }

  lemma KeysOfSnoc(methods: seq<string>, i: nat)
    requires i < |methods|
    ensures KeysOf(methods[..i + 1]) == Walked(KeysOf(methods[..i]), methods[i])
  {
    assert methods[..i + 1][..i] == methods[..i];
  }

  /** `create_request_method_keys`: every configured name is visited once, in
      order; the return code of `ngx_hash_add_key` is not looked at, so a
      refused duplicate does not end the walk. */
  method CreateRequestMethodKeys(methods: seq<string>) returns (ha: HashKeysArrays)
    ensures fresh(ha)
    ensures ha.keys == KeysOf(methods)
  {
    ha := new HashKeysArrays();
    for i := 0 to |methods|
      invariant ha.keys == KeysOf(methods[..i])
    {
      var name := methods[i];
      var code := GetRequestMethodNumber(name);
      KeysOfSnoc(methods, i);
      if code == Unknown {
        continue;
      }
      var _ := ha.AddKey(name, code);
    }
    assert methods[..|methods|] == methods;
  }

  /** The collected keys as an exact-spelling key-to-value map: the
      abstraction of the hash that `ngx_hash_init` builds from them, under
      which `GetValue` is an exact-key lookup. Keys are distinct
      (`KeysOfDistinct`); the first one wins. */
  function Table(keys: seq<HashKey>): map<string, Code>
  {
    if keys == [] then map[] else Table(keys[1..])[keys[0].key := keys[0].value]
  }

  /** The `ngx_hash_init_t` settings that `ngx_http_request_method_create_hash`
      chooses itself: the largest bucket count to try and the hash's name. */
  datatype HashInit = HashInit(maxSize: nat, name: string)

  /** The hash `ngx_http_request_method_create_hash` returns: a table when
      `ngx_hash_init` succeeded, and storage that was never filled in when it
      failed (the pointer is returned either way). */
  datatype MethodHash = Built(table: map<string, Code>) | InitFailed

  /** The settings handed to `ngx_hash_init` for `methods`. */
  function InitFor(methods: seq<string>): (init: HashInit)
    ensures init.maxSize == |methods| + 5
  {
    HashInit(|methods| + 5, "method_hash")
  }

  /** The hash built for `methods`; `hashInit` is the host's `ngx_hash_init`,
      answering whether it could lay out the given keys with the given settings. */
  function MethodHashOf(methods: seq<string>, hashInit: (HashInit, seq<HashKey>) -> bool): MethodHash
  {
    if hashInit(InitFor(methods), KeysOf(methods)) then Built(Table(KeysOf(methods))) else InitFailed
  }

  /** `ngx_http_request_method_create_hash`: fills in the `ngx_hash_init_t`
      settings, collects the keys, runs `ngx_hash_init` and returns the hash
      whatever `ngx_hash_init` reported. */
  method CreateHash(methods: seq<string>, hashInit: (HashInit, seq<HashKey>) -> bool) returns (hash: MethodHash)
    ensures hash == MethodHashOf(methods, hashInit)
    ensures hashInit(HashInit(|methods| + 5, "method_hash"), KeysOf(methods)) ==> hash.Built?
    ensures !hashInit(HashInit(|methods| + 5, "method_hash"), KeysOf(methods)) ==> hash == InitFailed
  {
    var init := HashInit(|methods| + 5, "method_hash");
    var methodKeys := CreateRequestMethodKeys(methods);
    var ok := hashInit(init, methodKeys.keys);
    if ok {
      hash := Built(Table(methodKeys.keys));
    } else {
      hash := InitFailed;
    }
  }

  /** `ngx_http_request_method_get_value`, whose body is not part of this
      model. Assumed contract: the value stored under exactly `name` when the
      built hash has that key, `NGX_HTTP_UNKNOWN` otherwise. */
  function GetValue(hash: MethodHash, name: string): (r: Code)
    requires hash.Built?
    ensures name in hash.table ==> r == hash.table[name]
    ensures name !in hash.table ==> r == Unknown
  {
    if name in hash.table then hash.table[name] else Unknown
  }

  /** No collected key carries `NGX_HTTP_UNKNOWN`, and each carries exactly the
      code its own name resolves to. */
  lemma {:induction false} KeysOfValues(methods: seq<string>)
    ensures forall i :: 0 <= i < |KeysOf(methods)| ==>
      KeysOf(methods)[i].value == GetRequestMethodNumber(KeysOf(methods)[i].key) != Unknown
  {
    if methods != [] {
      KeysOfValues(methods[..|methods| - 1]);
    }
  }

  /** A name is a key exactly when it is configured and resolves to a known
      code: unrecognised names are skipped, every recognised one is added
      (a duplicate of an earlier one is already there). */
  lemma {:induction false} KeysOfDomain(methods: seq<string>, name: string)
    ensures HasKey(KeysOf(methods), name) <==> name in methods && GetRequestMethodNumber(name) != Unknown
  {
    if methods != [] {
      var init, last := methods[..|methods| - 1], methods[|methods| - 1];
      assert methods == init + [last];
      KeysOfDomain(init, name);
      KeysOfValues(init);
      var before := KeysOf(init);
      if HasKey(before, name) {
        var i :| 0 <= i < |before| && before[i].key == name;
        assert KeysOf(methods)[i] == before[i];
      } else if name == last && GetRequestMethodNumber(name) != Unknown {
        assert KeysOf(methods)[|before|].key == name;
      }
    }
  }

  /** No key appears twice in the collected array. */
  lemma {:induction false} KeysOfDistinct(methods: seq<string>)
    ensures forall i, j :: 0 <= i < j < |KeysOf(methods)| ==> KeysOf(methods)[i].key != KeysOf(methods)[j].key
  {
    if methods != [] {
      KeysOfDistinct(methods[..|methods| - 1]);
    }
  }

  /** Names configured earlier have their keys first: the keys collected
      from a prefix of the configuration are a prefix of the final keys. */
  lemma {:induction false} KeysOfPrefix(methods: seq<string>, n: nat)
    requires n <= |methods|
    ensures KeysOf(methods[..n]) <= KeysOf(methods)
    decreases |methods| - n
  {
    if n < |methods| {
      KeysOfPrefix(methods, n + 1);
      KeysOfSnoc(methods, n);
    } else {
      assert methods[..n] == methods;
    }
  }

  /** The table of a key array whose keys are distinct holds each key with its
      value and nothing else. */
  lemma {:induction false} TableOfDistinct(keys: seq<HashKey>)
    requires forall i, j :: 0 <= i < j < |keys| ==> keys[i].key != keys[j].key
    ensures forall i :: 0 <= i < |keys| ==> keys[i].key in Table(keys) && Table(keys)[keys[i].key] == keys[i].value
    ensures forall name :: name in Table(keys) ==> HasKey(keys, name)
  {
    if keys != [] {
      TableOfDistinct(keys[1..]);
      forall name | name in Table(keys)
        ensures HasKey(keys, name)
      {
        if name != keys[0].key {
          assert HasKey(keys[1..], name);
          var i :| 0 <= i < |keys[1..]| && keys[1..][i].key == name;
          assert keys[i + 1].key == name;
        }
      }
    }
  }

  /** The compiled hash maps exactly the configured names that resolve to a
      known code, each to that code; no key is case-folded. */
  lemma TableOfKeys(methods: seq<string>, name: string)
    ensures name in Table(KeysOf(methods)) <==> name in methods && RequestMethod.GetNumber(name) != Unknown
    ensures name in Table(KeysOf(methods)) ==> Table(KeysOf(methods))[name] == RequestMethod.GetNumber(name)
  {
    var keys := KeysOf(methods);
    KeysOfDistinct(methods);
    KeysOfValues(methods);
    KeysOfDomain(methods, name);
    TableOfDistinct(keys);
    if HasKey(keys, name) {
      var i :| 0 <= i < |keys| && keys[i].key == name;
    }
  }

  /** Classification against a successfully built hash: a request method name
      is found, with its own code, exactly when that exact string was
      configured and is a catalogue name; everything else is `NGX_HTTP_UNKNOWN`. */
  lemma ClassifyByName(methods: seq<string>, hashInit: (HashInit, seq<HashKey>) -> bool, name: string)
    requires MethodHashOf(methods, hashInit).Built?
    ensures GetValue(MethodHashOf(methods, hashInit), name) != Unknown <==>
      name in methods && RequestMethod.GetNumber(name) != Unknown
    ensures GetValue(MethodHashOf(methods, hashInit), name) != Unknown ==>
      GetValue(MethodHashOf(methods, hashInit), name) == RequestMethod.GetNumber(name)
  {
    TableOfKeys(methods, name);
  }

  /** Keys are not case-folded: two spellings of one method, such as "GET"
      and "get", become two keys carrying the same code, and repeating a
      spelling adds nothing. */
  lemma SpellingsAreSeparateKeys(a: string, b: string)
    requires a != b && CaseEq(a, b)
    requires RequestMethod.GetNumber(a) != Unknown
    ensures KeysOf([a, a, b]) == [HashKey(a, RequestMethod.GetNumber(a)), HashKey(b, RequestMethod.GetNumber(a))]
  {
    RequestMethod.CaseInsensitive(a, b);
    var m, c := [a, a, b], RequestMethod.GetNumber(a);
    assert m[..0] == [];
    KeysOfSnoc(m, 0);
    assert KeysOf(m[..1]) == [HashKey(a, c)];
    KeysOfSnoc(m, 1);
    assert [HashKey(a, c)][0].key == a;
    KeysOfSnoc(m, 2);
    assert m[..3] == m;
  }

  /** The two representations agree in one direction: a request name the
      built hash finds resolves to a code the code set of the same
      configuration contains. */
  lemma HashFoundImpliesInCodeSet(methods: seq<string>, hashInit: (HashInit, seq<HashKey>) -> bool, name: string)
    requires MethodHashOf(methods, hashInit).Built?
    requires GetValue(MethodHashOf(methods, hashInit), name) != Unknown
    ensures RequestMethod.GetNumber(name) in RequestMethod.NumbersOf(methods)
  {
    ClassifyByName(methods, hashInit, name);
    var i :| 0 <= i < |methods| && methods[i] == name;
    RequestMethod.InNumbersOf(methods, RequestMethod.GetNumber(name));
  }

  /** They differ in the other, under the assumed exact-key lookup: a request
      spelling the configured method in another case has its code in the code
      set, but `GetValue` on the unfolded keys does not find it. */
  lemma SpellingDivergence(a: string, b: string, hashInit: (HashInit, seq<HashKey>) -> bool)
    requires a != b && CaseEq(a, b)
    requires RequestMethod.GetNumber(a) != Unknown
    requires MethodHashOf([a], hashInit).Built?
    ensures RequestMethod.GetNumber(b) in RequestMethod.NumbersOf([a])
    ensures GetValue(MethodHashOf([a], hashInit), b) == Unknown
  {
    RequestMethod.CaseInsensitive(a, b);
    RequestMethod.InNumbersOf([a], RequestMethod.GetNumber(b));
    ClassifyByName([a], hashInit, b);
  }
}
