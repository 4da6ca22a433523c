/** The code-set half of the allow-list engine (src/ngx_http_request_method.c):
    the name-to-code catalogue, the compiler from configured names to codes,
    and the linear membership test over the compiled codes. */
module RequestMethod {
  import opened Nginx
  import opened MethodCatalog

  /** `request_method_get_number`: the configured name against each catalogue
      name in turn, first match wins, `NGX_HTTP_UNKNOWN` when none matches. */
  function GetNumber(name: string): (r: Code)
    ensures r != Unknown ==> CaseEq(Name(r), name)
    ensures r == Unknown ==> forall c: Code :: c != Unknown ==> !CaseEq(Name(c), name)
  {
    if CaseEq(Name(Get), name) then Get
    else if CaseEq(Name(Head), name) then Head
    else if CaseEq(Name(Post), name) then Post
    else if CaseEq(Name(Put), name) then Put
    else if CaseEq(Name(Delete), name) then Delete
    else if CaseEq(Name(Mkcol), name) then Mkcol
    else if CaseEq(Name(Copy), name) then Copy
    else if CaseEq(Name(Move), name) then Move
    else if CaseEq(Name(Options), name) then Options
    else if CaseEq(Name(Propfind), name) then Propfind
    else if CaseEq(Name(Proppatch), name) then Proppatch
    else if CaseEq(Name(Lock), name) then Lock
    else if CaseEq(Name(Unlock), name) then Unlock
    else if CaseEq(Name(Patch), name) then Patch
    else if CaseEq(Name(Trace), name) then Trace
    else Unknown
  }

  /** `NGX_HTTP_UNKNOWN` is the answer exactly for names that match no catalogue name. */
  lemma GetNumberUnknownIff(name: string)
    ensures GetNumber(name) == Unknown <==> !Recognized(name)
  {
    var r := GetNumber(name);
    if r != Unknown {
      assert CaseEq(Name(r), name);
    }
  }

  /** A name is resolved to the one recognised code whose name it matches. */
  lemma GetNumberMatchesOnly(name: string, c: Code)
    requires c != Unknown
    ensures GetNumber(name) == c <==> CaseEq(Name(c), name)
  {
    var r := GetNumber(name);
    if CaseEq(Name(c), name) {
      assert r != Unknown;
      MatchIsUnique(r, c, name);
    }
  }

  /** Every catalogue name resolves to its own code, so the fifteen codes are
      distinct and none of them is `NGX_HTTP_UNKNOWN`. */
  lemma GetNumberOfName(c: Code)
    requires c != Unknown
    ensures GetNumber(Name(c)) == c
  {
    CaseEqReflexive(Name(c), 0);
    GetNumberMatchesOnly(Name(c), c);
  }

  /** The comparison ignores ASCII case: names that `ngx_strcasecmp` calls
      equal resolve alike. */
  lemma CaseInsensitive(a: string, b: string)
    requires CaseEq(a, b)
    ensures GetNumber(a) == GetNumber(b)
  {
    var ca, cb := GetNumber(a), GetNumber(b);
    if ca != Unknown {
      CaseEqTransitive(Name(ca), a, b, 0);
      GetNumberMatchesOnly(b, ca);
    } else if cb != Unknown {
      CaseEqSymmetric(a, b, 0);
      CaseEqTransitive(Name(cb), b, a, 0);
      GetNumberMatchesOnly(a, cb);
    }
  }

  /** Case does not matter: every spelling of a catalogue name resolves to it. */
  lemma GetNumberIgnoresCase()
    ensures GetNumber("get") == Get && GetNumber("GET") == Get && GetNumber("Get") == Get
    ensures GetNumber("propPatch") == Proppatch
  {
    // Resolve through `GetNumberMatchesOnly`, not by evaluating the chain.
    hide GetNumber;
    GetNumberMatchesOnly("get", Get);
    GetNumberMatchesOnly("GET", Get);
    GetNumberMatchesOnly("Get", Get);
    assert CaseEq("PROPPATCH", "propPatch");
    GetNumberMatchesOnly("propPatch", Proppatch);
  }

  /** The comparison ends at the first NUL, as for any C string: a name with
      an embedded NUL resolves by the text before it. */
  lemma GetNumberStopsAtNul()
    ensures GetNumber("GET\0X") == Get
  {
  }

  /** The typo "GETT" matches no catalogue name. */
  lemma GettUnrecognized()
    ensures GetNumber("GETT") == Unknown && !Recognized("GETT")
  {
    GetNumberUnknownIff("GETT");
  }

  /** The empty name matches no catalogue name. */
  lemma EmptyUnrecognized()
    ensures GetNumber("") == Unknown && !Recognized("")
  {
    GetNumberUnknownIff("");
  }

  /** The code array `names_to_numbers` builds when no push fails: the codes
      of the configured names, appended one by one. */
  function NumbersOf(names: seq<string>): seq<Code>
  {
    if names == [] then [] else NumbersOf(names[..|names| - 1]) + [GetNumber(names[|names| - 1])]
  }

  /** One code per configured name: nothing is dropped. */
  lemma {:induction false} NumbersOfLength(names: seq<string>)
    ensures |NumbersOf(names)| == |names|
  {
    if names != [] {
      NumbersOfLength(names[..|names| - 1]);
    }
  }

  /** Each code is that of the configured name in the same position;
      unrecognised names are kept as `Unknown`. */
  lemma {:induction false} NumbersOfAt(names: seq<string>, i: nat)
    requires i < |names|
    ensures |NumbersOf(names)| == |names|
    ensures NumbersOf(names)[i] == GetNumber(names[i])
  {
    var init := names[..|names| - 1];
    NumbersOfLength(init);
    NumbersOfLength(names);
    if i < |init| {
      NumbersOfAt(init, i);
    }
  }

  /** `NumbersOfAt` for every position at once. */
  lemma NumbersOfAll(names: seq<string>)
    ensures |NumbersOf(names)| == |names|
    ensures forall k :: 0 <= k < |names| ==> NumbersOf(names)[k] == GetNumber(names[k])
  {
    NumbersOfLength(names);
    forall k | 0 <= k < |names|
      ensures NumbersOf(names)[k] == GetNumber(names[k])
    {
      NumbersOfAt(names, k);
    }
  }

  lemma NumbersOfSnoc(names: seq<string>, i: nat)
    requires i < |names|
    ensures NumbersOf(names[..i + 1]) == NumbersOf(names[..i]) + [GetNumber(names[i])]
  {
    assert names[..i + 1][..i] == names[..i];
  }

  /** The number of elements the code array is created with; `ngx_array_push`
      allocates, and so can fail, only once that many are in use. */
  const InitialCapacity: nat := 20

  /** `ngx_http_request_method_names_to_numbers`. The outcome of the push at
      index i >= 20 is `pushOk(i)`, which admits more failures than the pool
      can produce; a failed push returns NULL (`None`) at once. */
  method NamesToNumbers(names: seq<string>, pushOk: nat -> bool) returns (r: Option<seq<Code>>)
    ensures r.None? <==> exists i: nat :: InitialCapacity <= i < |names| && !pushOk(i)
    ensures r.Some? ==> r.value == NumbersOf(names)
    ensures r.Some? ==> |r.value| == |names| && forall i :: 0 <= i < |names| ==> r.value[i] == GetNumber(names[i])
    ensures |names| <= InitialCapacity ==> r.Some?
  {
    // The catalogue comparison is not needed here, only `NumbersOf`.
    hide GetNumber, CaseEq, StrCaseEqFrom, Name;
    var numbers: seq<Code> := [];
    for i := 0 to |names|
      invariant numbers == NumbersOf(names[..i])
      invariant forall j: nat :: InitialCapacity <= j < i ==> pushOk(j)
    {
      var number := GetNumber(names[i]);
      if InitialCapacity <= i && !pushOk(i) {
        assert InitialCapacity <= i < |names| && !pushOk(i);
        return None;
      }
      NumbersOfSnoc(names, i);
      numbers := numbers + [number];
    }
    assert names[..|names|] == names;
    NumbersOfAll(names);
    return Some(numbers);
  }

  /** `ngx_http_request_method_contains_number`: 1 when some element equals
      `number`, 0 otherwise (also for an empty array). */
  method ContainsNumber(numbers: seq<Code>, number: Code) returns (found: int)
    ensures found == 1 <==> number in numbers
    ensures found == 0 <==> number !in numbers
  {
    for i := 0 to |numbers|
      invariant forall j :: 0 <= j < i ==> numbers[j] != number
    {
      if numbers[i] == number {
        return 1;
      }
    }
    return 0;
  }

  /** A code is in the compiled code set exactly when some configured name
      resolves to it. */
  lemma {:induction false} InNumbersOf(names: seq<string>, c: Code)
    ensures c in NumbersOf(names) <==> exists i :: 0 <= i < |names| && GetNumber(names[i]) == c
  {
    var codes := NumbersOf(names);
    if c in codes {
      var k :| 0 <= k < |codes| && codes[k] == c;
      NumbersOfLength(names);
      NumbersOfAt(names, k);
    }
    if exists i :: 0 <= i < |names| && GetNumber(names[i]) == c {
      var i :| 0 <= i < |names| && GetNumber(names[i]) == c;
      NumbersOfAt(names, i);
      assert codes[i] == c;
    }
  }

  /** A recognised method is in the compiled code set exactly when some
      configured name matches it up to case. */
  lemma CodeSetMembership(names: seq<string>, c: Code)
    requires c != Unknown
    ensures c in NumbersOf(names) <==> exists i :: 0 <= i < |names| && CaseEq(Name(c), names[i])
  {
    InNumbersOf(names, c);
    if exists i :: 0 <= i < |names| && GetNumber(names[i]) == c {
      var i :| 0 <= i < |names| && GetNumber(names[i]) == c;
      GetNumberMatchesOnly(names[i], c);
    }
    if exists i :: 0 <= i < |names| && CaseEq(Name(c), names[i]) {
      var i :| 0 <= i < |names| && CaseEq(Name(c), names[i]);
      GetNumberMatchesOnly(names[i], c);
    }
  }

  /** Because unrecognised names are kept, `Unknown` is in the compiled code
      set exactly when some configured name is not a catalogue name. */
  lemma UnknownKeptIffUnrecognized(names: seq<string>)
    ensures Unknown in NumbersOf(names) <==> exists i :: 0 <= i < |names| && !Recognized(names[i])
  {
    InNumbersOf(names, Unknown);
    if exists i :: 0 <= i < |names| && GetNumber(names[i]) == Unknown {
      var i :| 0 <= i < |names| && GetNumber(names[i]) == Unknown;
      GetNumberUnknownIff(names[i]);
    }
    if exists i :: 0 <= i < |names| && !Recognized(names[i]) {
      var i :| 0 <= i < |names| && !Recognized(names[i]);
      GetNumberUnknownIff(names[i]);
    }
  }

  /** A typo stays in the code set as `Unknown` instead of being dropped. */
  lemma TypoIsKept()
    ensures NumbersOf(["GET", "GETT"]) == [Get, Unknown]
  {
    GettUnrecognized();
    CaseEqReflexive("GET", 0);
    var names := ["GET", "GETT"];
    NumbersOfLength(names);
    NumbersOfAt(names, 0);
    NumbersOfAt(names, 1);
  }
}
