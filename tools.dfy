/**
 * The tool implementations of `tools.py` that hold logic of their own: the bio
 * store (`bio_get`, `bio_set` over `data/bio.json`) and the parts of the GitHub
 * wrappers that run before and after the HTTP request.  The HTTP requests
 * themselves are an oracle: a `Request` goes in, a `Result<Json>` comes out.
 */
module Tools {
  import opened Json

  // ----- bio store -----

  /** `_read_json(BIO_PATH)`: a missing file reads as the empty object. */
  function ReadJson(file: Option<Dict>): (d: Dict)
    ensures file.None? ==> d == []
    ensures file.Some? ==> d == file.value
  {
    file.GetOr([])
  }

  /** The one-character strings iterating over a Python `str` yields. */
  function CharStrings(s: string): (r: seq<string>)
    ensures |r| == |s|
    ensures forall i :: 0 <= i < |s| ==> r[i] == [s[i]]
  {
    if s == [] then [] else [[s[0]]] + CharStrings(s[1..])
  }

  function CharItems(s: string): (r: seq<Json>)
    ensures |r| == |s|
    ensures forall i :: 0 <= i < |s| ==> r[i] == Str([s[i]])
  {
    if s == [] then [] else [Str([s[0]])] + CharItems(s[1..])
  }

  /** The keys a `keys` argument iterates over, in order (`for k in keys`). */
  function KeysToRead(keys: Json): (r: Result<seq<string>>)
    ensures keys.Arr? && (forall i :: 0 <= i < |keys.items| ==> keys.items[i].Str?) ==>
      r.Ok? && |r.value| == |keys.items| && forall i :: 0 <= i < |keys.items| ==> r.value[i] == keys.items[i].s
  {
    match keys
    case Arr(items) => ItemKeys(items)
    case Str(s) => Ok(CharStrings(s))
    case Obj(f) => Ok(Keys(f))
    case _ => Fail("'" + TypeName(keys) + "' object is not iterable")
  }

  function ItemKeys(items: seq<Json>): (r: Result<seq<string>>)
    ensures (forall i :: 0 <= i < |items| ==> items[i].Str?) ==>
      r.Ok? && |r.value| == |items| && forall i :: 0 <= i < |items| ==> r.value[i] == items[i].s
  {
    if items == [] then Ok([])
    else
      var k :- match items[0]
        case Str(s) => Ok(s)
        case Arr(_) => Fail("unhashable type: 'list'")
        case Obj(_) => Fail("unhashable type: 'dict'")
        case _ => Fail(NotModelledMessage);
      var rest :- ItemKeys(items[1..]);
      Ok([k] + rest)
  }

  /** `{k: data.get(k) for k in keys}`: one entry per distinct key, in first-seen order. */
  function Project(data: Dict, keys: seq<string>): Dict
    decreases |keys|
  {
    if keys == [] then [] else Put(Project(data, keys[..|keys| - 1]), keys[|keys| - 1], Lookup(data, keys[|keys| - 1]).GetOr(Null))
  }

  /** `bio_get(keys)` over the stored document `data`. */
  function BioGet(data: Dict, keys: Json): (r: Result<Json>)
    ensures !Truthy(keys) ==> r == Ok(Obj(data))
  {
    if !Truthy(keys) then Ok(Obj(data))
    else
      var ks :- KeysToRead(keys);
      Ok(Obj(Project(data, ks)))
  }

  /**
   * The projection has exactly the requested keys, each once, in the order they were
   * first asked for, and each carries the stored value or null when the key is not stored.
   */
  lemma {:induction false} ProjectDistinct(data: Dict, keys: seq<string>)
    ensures DistinctKeys(Project(data, keys))
    decreases |keys|
  {
    if keys != [] {
      ProjectDistinct(data, keys[..|keys| - 1]);
      PutDistinct(Project(data, keys[..|keys| - 1]), keys[|keys| - 1], Lookup(data, keys[|keys| - 1]).GetOr(Null));
    }
  }

  lemma {:induction false} ProjectSpec(data: Dict, keys: seq<string>)
    ensures forall k :: k in Keys(Project(data, keys)) <==> k in keys
    ensures forall k :: k in keys ==> Lookup(Project(data, keys), k) == Some(Lookup(data, k).GetOr(Null))
    decreases |keys|
  {
    if keys != [] {
      var init := keys[..|keys| - 1];
      ProjectSpec(data, init);
      assert keys == init + [keys[|keys| - 1]];
    }
  }

  /** `bio_get` with a list of key names answers exactly those keys, with null for the unknown ones. */
  lemma BioGetKeys(data: Dict, names: seq<string>)
    requires names != []
    ensures var r := BioGet(data, Arr(seq(|names|, i requires 0 <= i < |names| => Str(names[i]))));
      && r.Ok? && r.value.Obj?
      && DistinctKeys(r.value.fields)
      && (forall k :: k in Keys(r.value.fields) <==> k in names)
      && (forall k :: k in names ==> Lookup(r.value.fields, k) == Some(Lookup(data, k).GetOr(Null)))
  {
    var keys := Arr(seq(|names|, i requires 0 <= i < |names| => Str(names[i])));
    assert KeysToRead(keys).value == names;
    ProjectDistinct(data, names);
    ProjectSpec(data, names);
  }

  /** What `bio_set` reports, and the document it writes (`None`: the file is not written). */
  datatype SetEffect = SetEffect(result: Result<Json>, written: Option<Dict>)

  /** The pairs a sequence argument of `dict.update` contributes, checked element by element. */
  function UpdatePairs(items: seq<Json>, index: nat): (r: Result<Dict>)
    decreases |items|
  {
    if items == [] then Ok([])
    else
      var e := items[0];
      var at := "dictionary update sequence element #" + NatToString(index);
      var pair :- match e
        case Str(s) =>
          if |s| == 2 then Ok(([s[0]], Str([s[1]])))
          else Fail(at + " has length " + NatToString(|s|) + "; 2 is required")
        case Arr(a) =>
          if |a| != 2 then Fail(at + " has length " + NatToString(|a|) + "; 2 is required")
          else (match a[0]
            case Str(k) => Ok((k, a[1]))
            case Arr(_) => Fail("unhashable type: 'list'")
            case Obj(_) => Fail("unhashable type: 'dict'")
            case _ => Fail(NotModelledMessage))
        case Obj(f) =>
          if |f| == 2 then Ok((f[0].0, Str(f[1].0)))
          else Fail(at + " has length " + NatToString(|f|) + "; 2 is required")
        case _ => Fail("cannot convert " + at + " to a sequence");
      var rest :- UpdatePairs(items[1..], index + 1);
      Ok([pair] + rest)
  }

  /** `{"ok": True, "updated_keys": list(update.keys())}`. */
  function SetReceipt(u: Dict): Json {
    Obj([("ok", Bool(true)), ("updated_keys", Arr(seq(|u|, i requires 0 <= i < |u| => Str(u[i].0))))])
  }

  /**
   * `bio_set(update)` over the stored document `data`: merge `update or {}`, write, then
   * report `update.keys()` of the argument itself.  A falsy non-object (null, `[]`, `""`,
   * 0, false) and a list or string of pairs are merged and written before `.keys()` fails.
   */
  function BioSet(data: Dict, update: Json): (e: SetEffect)
    ensures update.Obj? ==> e == SetEffect(Ok(SetReceipt(update.fields)), Some(Update(data, update.fields)))
    ensures !Truthy(update) && !update.Obj? ==>
      e == SetEffect(Fail("'" + TypeName(update) + "' object has no attribute 'keys'"), Some(data))
    ensures e.result.Ok? <==> update.Obj?
    ensures e.written.None? ==> e.result.Fail?
  {
    var u := Or(update, Obj([]));
    match u
    case Obj(f) =>
      if update.Obj? then SetEffect(Ok(SetReceipt(f)), Some(Update(data, f)))
      else SetEffect(Fail("'" + TypeName(update) + "' object has no attribute 'keys'"), Some(Update(data, f)))
    case Arr(items) =>
      (match UpdatePairs(items, 0)
       case Ok(pairs) => SetEffect(Fail("'list' object has no attribute 'keys'"), Some(Update(data, pairs)))
       case Fail(m) => SetEffect(Fail(m), None))
    case Str(s) =>
      (match UpdatePairs(CharItems(s), 0)
       case Ok(pairs) => SetEffect(Fail("'str' object has no attribute 'keys'"), Some(Update(data, pairs)))
       case Fail(m) => SetEffect(Fail(m), None))
    case _ => SetEffect(Fail("'" + TypeName(u) + "' object is not iterable"), None)
  }

  /**
   * `bio_set` with an object is a shallow merge: every key of the update takes its new
   * value, every other stored key keeps its value, no key is removed and the stored keys
   * keep their order ahead of the new ones.
   */
  lemma BioSetMerges(data: Dict, u: Dict)
    requires DistinctKeys(u)
    ensures var w := BioSet(data, Obj(u)).written;
      && w.Some?
      && (forall k :: k in Keys(u) ==> Lookup(w.value, k) == Lookup(u, k))
      && (forall k :: k !in Keys(u) ==> Lookup(w.value, k) == Lookup(data, k))
      && (forall k :: k in Keys(w.value) <==> k in Keys(data) || k in Keys(u))
      && |w.value| >= |data| && Keys(w.value)[..|data|] == Keys(data)
  {
    forall k ensures Lookup(Update(data, u), k) == if k in Keys(u) then Lookup(u, k) else Lookup(data, k) {
      UpdateLookup(data, u, k);
    }
    UpdateKeys(data, u);
    forall k ensures k in Keys(Update(data, u)) <==> k in Keys(data) || k in Keys(u) {
      UpdateKeySet(data, u, k);
    }
  }

  /** Repeating an object update writes the document the first call wrote and reports the same keys. */
  lemma BioSetIdempotent(data: Dict, u: Dict)
    requires DistinctKeys(u)
    ensures var first := BioSet(data, Obj(u));
      first.written.Some? && BioSet(first.written.value, Obj(u)) == first
  {
    UpdateIdempotent(data, u);
  }

  /** Two updates in turn: a key set by the first and not touched by the second survives. */
  lemma BioSetAccumulates(data: Dict, u1: Dict, u2: Dict, k: string)
    requires DistinctKeys(u1) && DistinctKeys(u2)
    requires k in Keys(u1) && k !in Keys(u2)
    ensures var w := BioSet(BioSet(data, Obj(u1)).written.value, Obj(u2)).written;
      w.Some? && Lookup(w.value, k) == Lookup(u1, k)
  {
    UpdateLookup(Update(data, u1), u2, k);
    UpdateLookup(data, u1, k);
  }

  /** The bio document on disk; `file` is `None` while `data/bio.json` does not exist. */
  class BioFile {
    var file: Option<Dict>

    constructor (initial: Option<Dict>)
      ensures file == initial
    {
      file := initial;
    }

    function Read(): (d: Dict)
      reads this
      ensures d == ReadJson(file)
    {
      ReadJson(file)
    }

    /** `bio_set(update)`: read the document, merge, write it back, report. */
    method Set(update: Json) returns (r: Result<Json>)
      modifies this
      ensures r == BioSet(old(Read()), update).result
      ensures file == if BioSet(old(Read()), update).written.Some? then BioSet(old(Read()), update).written else old(file)
    {
      var data := ReadJson(file);
      var e := BioSet(data, update);
      if e.written.Some? {
        file := e.written;
      }
      r := e.result;
    }
  }

  // ----- GitHub wrappers: the parts around the HTTP request -----

  /** The index of the first slash in `s`, if any. */
  function FirstSlash(s: string): (r: Option<nat>)
    ensures r.Some? ==> r.value < |s| && s[r.value] == '/' && forall i :: 0 <= i < r.value ==> s[i] != '/'
    ensures r.None? ==> forall i :: 0 <= i < |s| ==> s[i] != '/'
  {
    if s == [] then None
    else if s[0] == '/' then Some(0)
    else match FirstSlash(s[1..])
      case None => None
      case Some(i) => Some(i + 1)
  }

  /** `owner, repo = owner_repo.split("/", 1)`. */
  function SplitOwnerRepo(s: string): (r: Result<(string, string)>)
    ensures r.Ok? <==> '/' in s
    ensures r.Ok? ==> '/' !in r.value.0 && s == r.value.0 + "/" + r.value.1
    ensures r.Fail? ==> r.message == "not enough values to unpack (expected 2, got 1)"
  {
    match FirstSlash(s)
    case None => Fail("not enough values to unpack (expected 2, got 1)")
    case Some(i) =>
      assert s == s[..i] + "/" + s[i + 1..];
      Ok((s[..i], s[i + 1..]))
  }

  /** The split applied to a decoded argument, which may not be a string at all. */
  function SplitArg(ownerRepo: Json): (r: Result<(string, string)>)
    ensures !ownerRepo.Str? ==> r == Fail("'" + TypeName(ownerRepo) + "' object has no attribute 'split'")
  {
    if ownerRepo.Str? then SplitOwnerRepo(ownerRepo.s)
    else Fail("'" + TypeName(ownerRepo) + "' object has no attribute 'split'")
  }

  /** The search query of `github_search_code`: `q`, plus a `repo:` qualifier when a repo is given. */
  function SearchQuery(q: Json, repo: Json): (r: Result<Json>)
    ensures !Truthy(repo) ==> r == Ok(q)
    ensures Truthy(repo) && q.Str? && repo.Str? ==> r == Ok(Str(q.s + " repo:" + repo.s))
  {
    if !Truthy(repo) then Ok(q)
    else if q.Str? && repo.Str? then Ok(Str(q.s + " repo:" + repo.s))
    else Fail(NotModelledMessage)
  }

  /** The search query keeps `q` as its prefix and adds nothing but the qualifier. */
  lemma SearchQueryExtends(q: string, repo: string)
    ensures var r := SearchQuery(Str(q), Str(repo));
      r.Ok? && r.value.Str? && r.value.s[..|q|] == q
      && (repo == "" <==> r.value.s == q)
      && (repo != "" ==> r.value.s[|q|..] == " repo:" + repo)
  {
    if repo != "" {
      assert (q + " repo:" + repo)[..|q|] == q;
      assert (q + " repo:" + repo)[|q|..] == " repo:" + repo;
    }
  }

  /** The order in which `github_list_commits` inserts its parameters. */
  function ParamRank(key: string): nat {
    if key == "per_page" then 0 else if key == "author" then 1 else if key == "path" then 2
    else if key == "since" then 3 else if key == "until" then 4 else 5
  }

  /** The parameter keys appear in insertion order. */
  ghost predicate InParamOrder(params: Dict) {
    forall i, j :: 0 <= i < j < |params| ==> ParamRank(params[i].0) < ParamRank(params[j].0)
  }

  /** What `params.get(key)` gives after `if v: params[key] = v` on a dict without `key`. */
  function Given(v: Json): Option<Json> {
    if Truthy(v) then Some(v) else None
  }

  /** `for key, v in cands: if v: params[key] = v`. */
  function AddGiven(params: Dict, cands: Dict): Dict
    decreases |cands|
  {
    if cands == [] then params
    else AddGiven(if Truthy(cands[0].1) then Put(params, cands[0].0, cands[0].1) else params, cands[1..])
  }

  lemma {:induction false} LookupAppend(d: Dict, e: (string, Json), x: string)
    ensures Lookup(d + [e], x) == if x in Keys(d) then Lookup(d, x) else if x == e.0 then Some(e.1) else None
  {
    if d != [] {
      assert (d + [e])[1..] == d[1..] + [e];
      KeysTail(d);
      LookupAppend(d[1..], e, x);
    }
  }

  /** Dropping or keeping the first candidate keeps the ranks increasing; its key is new. */
  lemma {:induction false} OrderNext(params: Dict, cands: Dict)
    requires cands != [] && InParamOrder(params + cands)
    ensures InParamOrder((params + [cands[0]]) + cands[1..])
    ensures InParamOrder(params + cands[1..])
    ensures cands[0].0 !in Keys(params) && cands[0].0 !in Keys(cands[1..])
  {
    var c := cands[0];
    assert params + cands == (params + [c]) + cands[1..];
    forall i, j | 0 <= i < j < |params| + |cands| - 1
      ensures ParamRank((params + cands[1..])[i].0) < ParamRank((params + cands[1..])[j].0)
    {
      var i', j' := if i < |params| then i else i + 1, if j < |params| then j else j + 1;
      assert (params + cands[1..])[i] == (params + cands)[i'];
      assert (params + cands[1..])[j] == (params + cands)[j'];
    }
    assert (params + cands)[|params|] == c;
    forall i | 0 <= i < |params| ensures Keys(params)[i] != c.0 {
      assert (params + cands)[i] == params[i];
    }
    forall i | 0 <= i < |cands| - 1 ensures Keys(cands[1..])[i] != c.0 {
      assert (params + cands)[|params| + 1 + i] == cands[1..][i];
    }
  }

  /**
   * After `AddGiven`, a candidate key holds its value exactly when that value is truthy,
   * and every other key keeps what `params` held.
   */
  lemma {:induction false} AddGivenLookup(params: Dict, cands: Dict, x: string)
    requires InParamOrder(params + cands)
    ensures Lookup(AddGiven(params, cands), x) ==
      if x in Keys(cands) then Given(Lookup(cands, x).value) else Lookup(params, x)
    decreases |cands|
  {
    if cands != [] {
      var c := cands[0];
      var next := if Truthy(c.1) then params + [c] else params;
      OrderNext(params, cands);
      PutNew(params, c.0, c.1);
      KeysTail(cands);
      AddGivenLookup(next, cands[1..], x);
      assert AddGiven(params, cands) == AddGiven(next, cands[1..]);
      LookupAppend(params, c, x);
      if x != c.0 {
        LookupTail(cands, x);
      }
    }
  }

  /** Every entry `AddGiven` returns comes from `params` or from the candidates. */
  lemma {:induction false} AddGivenFrom(params: Dict, cands: Dict)
    requires InParamOrder(params + cands)
    ensures forall e :: e in AddGiven(params, cands) ==> e in params || e in cands
    decreases |cands|
  {
    if cands != [] {
      var next := if Truthy(cands[0].1) then params + [cands[0]] else params;
      OrderNext(params, cands);
      PutNew(params, cands[0].0, cands[0].1);
      AddGivenFrom(next, cands[1..]);
      assert AddGiven(params, cands) == AddGiven(next, cands[1..]);
      assert forall e :: e in cands[1..] ==> e in cands;
    }
  }

  /** The fold performs one conditional assignment `if v: params[key] = v` at a time. */
  lemma {:induction false} AddGivenStep(params: Dict, key: string, v: Json, more: Dict)
    ensures AddGiven(params, [(key, v)] + more) == AddGiven(if Truthy(v) then Put(params, key, v) else params, more)
  {
    assert ([(key, v)] + more)[1..] == more;
  }

  /** `AddGiven` keeps the order in which the candidates were listed. */
  lemma {:induction false} AddGivenOrder(params: Dict, cands: Dict)
    requires InParamOrder(params + cands)
    ensures InParamOrder(AddGiven(params, cands))
    decreases |cands|
  {
    if cands == [] {
      assert params + cands == params;
    } else {
      var next := if Truthy(cands[0].1) then params + [cands[0]] else params;
      OrderNext(params, cands);
      PutNew(params, cands[0].0, cands[0].1);
      AddGivenOrder(next, cands[1..]);
      assert AddGiven(params, cands) == AddGiven(next, cands[1..]);
    }
  }

  /** `AddGiven` keeps the entries `params` already held, in front. */
  lemma {:induction false} AddGivenPrefix(params: Dict, cands: Dict)
    requires InParamOrder(params + cands)
    ensures |params| <= |AddGiven(params, cands)| && AddGiven(params, cands)[..|params|] == params
    decreases |cands|
  {
    if cands != [] {
      var next := if Truthy(cands[0].1) then params + [cands[0]] else params;
      OrderNext(params, cands);
      PutNew(params, cands[0].0, cands[0].1);
      AddGivenPrefix(next, cands[1..]);
      assert AddGiven(params, cands) == AddGiven(next, cands[1..]);
      assert next[..|params|] == params;
    }
  }

  /** The optional parameters of `github_list_commits`, in the order the source tests them. */
  function CommitCandidates(author: Json, path: Json, since: Json, until: Json): Dict {
    [("author", author), ("path", path), ("since", since), ("until", until)]
  }

  /** The request parameters of `github_list_commits`. */
  function CommitParamsOf(perPage: Json, author: Json, path: Json, since: Json, until: Json): Dict {
    AddGiven([("per_page", perPage)], CommitCandidates(author, path, since, until))
  }

  /** `per_page` followed by the candidates ranks strictly increasing. */
  lemma CandidatesOrdered(perPage: Json, author: Json, path: Json, since: Json, until: Json)
    ensures InParamOrder([("per_page", perPage)] + CommitCandidates(author, path, since, until))
  {
    var all := [("per_page", perPage)] + CommitCandidates(author, path, since, until);
    assert forall i :: 0 <= i < |all| ==> ParamRank(all[i].0) == i by {
      assert all[0].0 == "per_page" && all[1].0 == "author" && all[2].0 == "path";
      assert all[3].0 == "since" && all[4].0 == "until";
    }
  }

  /**
   * The commit parameters start with `per_page` and hold each of author, path, since and
   * until exactly when it was given (truthy), with the given value.
   */
  lemma CommitParamsLookup(perPage: Json, author: Json, path: Json, since: Json, until: Json)
    ensures var params := CommitParamsOf(perPage, author, path, since, until);
      && |params| >= 1 && params[0] == ("per_page", perPage)
      && Lookup(params, "author") == Given(author)
      && Lookup(params, "path") == Given(path)
      && Lookup(params, "since") == Given(since)
      && Lookup(params, "until") == Given(until)
  {
    var p0 := [("per_page", perPage)];
    var cands := CommitCandidates(author, path, since, until);
    CommitParamGiven(perPage, author, path, since, until, 0);
    CommitParamGiven(perPage, author, path, since, until, 1);
    CommitParamGiven(perPage, author, path, since, until, 2);
    CommitParamGiven(perPage, author, path, since, until, 3);
    CandidatesOrdered(perPage, author, path, since, until);
    AddGivenPrefix(p0, cands);
    assert AddGiven(p0, cands)[..1] == p0;
  }

  /** The `i`-th optional parameter is sent exactly when given, with its value. */
  lemma CommitParamGiven(perPage: Json, author: Json, path: Json, since: Json, until: Json, i: nat)
    requires i < 4
    ensures var c := CommitCandidates(author, path, since, until)[i];
      Lookup(CommitParamsOf(perPage, author, path, since, until), c.0) == Given(c.1)
  {
    var cands := CommitCandidates(author, path, since, until);
    CandidatesOrdered(perPage, author, path, since, until);
    assert Keys(cands) == ["author", "path", "since", "until"];
    LookupAt(cands, i);
    AddGivenLookup([("per_page", perPage)], cands, cands[i].0);
  }

  /** Only the five parameters are ever sent, in the order per_page, author, path, since, until. */
  lemma CommitParamsOrder(perPage: Json, author: Json, path: Json, since: Json, until: Json)
    ensures var params := CommitParamsOf(perPage, author, path, since, until);
      && InParamOrder(params)
      && forall k :: k in Keys(params) ==> ParamRank(k) < 5
  {
    var p0 := [("per_page", perPage)];
    var cands := CommitCandidates(author, path, since, until);
    CandidatesOrdered(perPage, author, path, since, until);
    AddGivenOrder(p0, cands);
    AddGivenFrom(p0, cands);
    var params := AddGiven(p0, cands);
    forall k | k in Keys(params) ensures ParamRank(k) < 5 {
      var i :| 0 <= i < |params| && Keys(params)[i] == k;
      assert params[i] in p0 + cands;
    }
  }

  /** `if v: params[key] = v`. */
  method AssignGiven(params: Dict, key: string, v: Json) returns (r: Dict)
    ensures r == if Truthy(v) then Put(params, key, v) else params
  {
    r := params;
    if Truthy(v) {
      r := Put(r, key, v);
    }
  }

  /** `github_list_commits` building its parameters by conditional assignment. */
  method CommitParams(perPage: Json, author: Json, path: Json, since: Json, until: Json) returns (params: Dict)
    ensures params == CommitParamsOf(perPage, author, path, since, until)
  {
    params := [("per_page", perPage)];
    AddGivenStep(params, "author", author, [("path", path), ("since", since), ("until", until)]);
    params := AssignGiven(params, "author", author);
    AddGivenStep(params, "path", path, [("since", since), ("until", until)]);
    params := AssignGiven(params, "path", path);
    AddGivenStep(params, "since", since, [("until", until)]);
    params := AssignGiven(params, "since", since);
    AddGivenStep(params, "until", until, []);
    params := AssignGiven(params, "until", until);
    assert CommitCandidates(author, path, since, until) ==
      [("author", author)] + ([("path", path)] + ([("since", since)] + ([("until", until)] + [])));
  }

  /** `(pr.get("user") or {}).get("login")`. */
  function PrLogin(pr: Json): Result<Json> {
    var user :- PyGet(pr, "user");
    PyGet(Or(user, Obj([])), "login")
  }

  /** `if author and login != author: continue`. */
  function PrSkipped(pr: Json, author: Json): Result<bool> {
    if !Truthy(author) then Ok(false)
    else
      var login :- PrLogin(pr);
      Ok(login != author)
  }

  /** The summary `github_list_pull_requests` keeps of one pull request. */
  function PrSummary(pr: Json): (r: Result<Json>)
    ensures r.Ok? ==> PrLogin(pr).Ok? && r.value.Obj?
    ensures r.Ok? ==> Lookup(r.value.fields, "user") == Some(PrLogin(pr).value)
  {
    var number :- PyIndex(pr, "number");
    var title :- PyIndex(pr, "title");
    var state :- PyIndex(pr, "state");
    var login :- PrLogin(pr);
    var url :- PyIndex(pr, "html_url");
    Ok(SummaryObject(number, title, state, login, url))
  }

  function SummaryObject(number: Json, title: Json, state: Json, login: Json, url: Json): (j: Json)
    ensures j.Obj? && Lookup(j.fields, "user") == Some(login)
  {
    var fields := [("number", number), ("title", title), ("state", state), ("user", login), ("html_url", url)];
    LookupAt(fields, 3);
    Obj(fields)
  }

  /** One pass of the loop body: skip the pull, or append its summary. */
  function PullStep(out: seq<Json>, pr: Json, author: Json): Result<seq<Json>> {
    var skip :- PrSkipped(pr, author);
    if skip then Ok(out)
    else
      var s :- PrSummary(pr);
      Ok(out + [s])
  }

  /** The loop of `github_list_pull_requests` over the pulls the API returned, in order. */
  function PullsByAuthor(prs: seq<Json>, author: Json): Result<seq<Json>>
    decreases |prs|
  {
    if prs == [] then Ok([])
    else
      var out :- PullsByAuthor(prs[..|prs| - 1], author);
      PullStep(out, prs[|prs| - 1], author)
  }

  /** Pull requests the API can deliver: objects with the fields the summary reads. */
  predicate WellFormedPr(pr: Json) {
    PrSummary(pr).Ok?
  }

  /** The selection criterion: no author given, or the pull's author login is `author`. */
  predicate Kept(pr: Json, author: Json) {
    !Truthy(author) || PrLogin(pr) == Ok(author)
  }

  /**
   * A pull the loop body gets through without raising: its login can be read whenever an
   * author is given (for the comparison), and its summary fields whenever it is kept.
   * A pull by someone else is dropped by `continue` before its other fields are read.
   */
  predicate Readable(pr: Json, author: Json) {
    (Truthy(author) ==> PrLogin(pr).Ok?) && (Kept(pr, author) ==> WellFormedPr(pr))
  }

  /** Every pull in the list is readable for `author`. */
  predicate AllReadable(prs: seq<Json>, author: Json)
    decreases |prs|
  {
    prs == [] || (AllReadable(prs[..|prs| - 1], author) && Readable(prs[|prs| - 1], author))
  }

  /** The loop body raises exactly on an unreadable pull. */
  lemma PullStepRaises(out: seq<Json>, pr: Json, author: Json)
    ensures PullStep(out, pr, author).Ok? <==> Readable(pr, author)
  {
    if Truthy(author) && PrLogin(pr).Ok? {
      assert PrSkipped(pr, author) == Ok(PrLogin(pr).value != author);
    }
  }

  /** On a readable pull the loop body appends the summary of a kept pull, and `continue`s past any other. */
  lemma PullStepReadable(out: seq<Json>, pr: Json, author: Json)
    requires Readable(pr, author)
    ensures PullStep(out, pr, author) == Ok(if Kept(pr, author) then out + [PrSummary(pr).value] else out)
  {
    if Truthy(author) {
      assert PrSkipped(pr, author) == Ok(PrLogin(pr).value != author);
    }
  }

  /** The reference filter: the pulls whose author login is `author`, or all of them without an author. */
  function Authored(prs: seq<Json>, author: Json): (r: seq<Json>)
    ensures forall x :: x in r <==> x in prs && Kept(x, author)
    ensures !Truthy(author) ==> r == prs
    decreases |prs|
  {
    if prs == [] then []
    else
      var init := Authored(prs[..|prs| - 1], author);
      var pr := prs[|prs| - 1];
      assert prs == prs[..|prs| - 1] + [pr];
      if Kept(pr, author) then init + [pr] else init
  }

  /** Every pull in the list is well formed. */
  predicate AllWellFormed(prs: seq<Json>)
    decreases |prs|
  {
    prs == [] || (AllWellFormed(prs[..|prs| - 1]) && WellFormedPr(prs[|prs| - 1]))
  }

  lemma {:induction false} AllWellFormedAt(prs: seq<Json>, i: nat)
    requires AllWellFormed(prs) && i < |prs|
    ensures WellFormedPr(prs[i])
    decreases |prs|
  {
    if i < |prs| - 1 {
      AllWellFormedAt(prs[..|prs| - 1], i);
    }
  }

  /** The summaries of a list of well-formed pulls, in order. */
  function Summaries(prs: seq<Json>): (r: seq<Json>)
    requires AllWellFormed(prs)
    ensures |r| == |prs|
    decreases |prs|
  {
    if prs == [] then [] else Summaries(prs[..|prs| - 1]) + [PrSummary(prs[|prs| - 1]).value]
  }

  lemma {:induction false} SummariesAt(prs: seq<Json>, i: nat)
    requires AllWellFormed(prs) && i < |prs|
    ensures WellFormedPr(prs[i]) && Summaries(prs)[i] == PrSummary(prs[i]).value
    decreases |prs|
  {
    AllWellFormedAt(prs, i);
    if i < |prs| - 1 {
      SummariesAt(prs[..|prs| - 1], i);
    }
  }

  lemma {:induction false} AuthoredWellFormed(prs: seq<Json>, author: Json)
    requires AllReadable(prs, author)
    ensures AllWellFormed(Authored(prs, author))
    decreases |prs|
  {
    if prs != [] {
      var init := prs[..|prs| - 1];
      var pr := prs[|prs| - 1];
      AuthoredWellFormed(init, author);
      var a := Authored(init, author);
      if Kept(pr, author) {
        assert (a + [pr])[..|a|] == a;
      }
    }
  }

  /**
   * The loop succeeds exactly when every pull is readable, and then keeps, in their original
   * order, the summaries of exactly the pulls whose author login equals `author`, and of all
   * pulls when no author is given.
   */
  lemma PullsByAuthorFilters(prs: seq<Json>, author: Json)
    ensures PullsByAuthor(prs, author).Ok? <==> AllReadable(prs, author)
    ensures AllReadable(prs, author) ==>
      && AllWellFormed(Authored(prs, author))
      && PullsByAuthor(prs, author) == Ok(Summaries(Authored(prs, author)))
  {
    PullsByAuthorRaises(prs, author);
    if AllReadable(prs, author) {
      PullsByAuthorKeeps(prs, author);
    }
  }

  lemma {:induction false} PullsByAuthorRaises(prs: seq<Json>, author: Json)
    ensures PullsByAuthor(prs, author).Ok? <==> AllReadable(prs, author)
    decreases |prs|
  {
    if prs != [] {
      var init := prs[..|prs| - 1];
      PullsByAuthorRaises(init, author);
      if PullsByAuthor(init, author).Ok? {
        PullStepRaises(PullsByAuthor(init, author).value, prs[|prs| - 1], author);
      }
    }
  }

  lemma {:induction false} PullsByAuthorKeeps(prs: seq<Json>, author: Json)
    requires AllReadable(prs, author)
    ensures AllWellFormed(Authored(prs, author))
    ensures PullsByAuthor(prs, author) == Ok(Summaries(Authored(prs, author)))
    decreases |prs|
  {
    AuthoredWellFormed(prs, author);
    if prs != [] {
      var init := prs[..|prs| - 1];
      var pr := prs[|prs| - 1];
      PullsByAuthorKeeps(init, author);
      var a := Authored(init, author);
      PullStepReadable(Summaries(a), pr, author);
      if Kept(pr, author) {
        assert (a + [pr])[..|a|] == a;
      }
    }
  }

  /** Every summary in the list is an object whose `user` is `author`. */
  predicate AllByUser(summaries: seq<Json>, author: Json) {
    forall i :: 0 <= i < |summaries| ==>
      summaries[i].Obj? && Lookup(summaries[i].fields, "user") == Some(author)
  }

  /** One pass of the loop body with an author given appends only a summary by that author. */
  lemma PullStepUser(out: seq<Json>, pr: Json, author: Json)
    requires Truthy(author) && AllByUser(out, author)
    ensures PullStep(out, pr, author).Ok? ==> AllByUser(PullStep(out, pr, author).value, author)
  {
    if PullStep(out, pr, author).Ok? {
      assert PrSkipped(pr, author) == Ok(PrLogin(pr).value != author);
      if PrLogin(pr).value == author {
        var summary := PrSummary(pr).value;
        assert PullStep(out, pr, author).value == out + [summary];
      }
    }
  }

  /** With an author given, every summary the loop returns names that author as its user. */
  lemma {:induction false} PullsByAuthorUser(prs: seq<Json>, author: Json)
    ensures PullsByAuthor(prs, author).Ok? && Truthy(author) ==>
      AllByUser(PullsByAuthor(prs, author).value, author)
    decreases |prs|
  {
    if prs != [] && Truthy(author) {
      var init := prs[..|prs| - 1];
      PullsByAuthorUser(init, author);
      if PullsByAuthor(init, author).Ok? {
        PullStepUser(PullsByAuthor(init, author).value, prs[|prs| - 1], author);
      }
    }
  }

  /** `github_list_pull_requests`' loop with `continue` and `append`. */
  method FilterPullRequests(prs: seq<Json>, author: Json) returns (r: Result<seq<Json>>)
    ensures r == PullsByAuthor(prs, author)
  {
    var out: seq<Json> := [];
    for i := 0 to |prs|
      invariant PullsByAuthor(prs[..i], author) == Ok(out)
    {
      PullsByAuthorNext(prs, author, i);
      var step := PullStep(out, prs[i], author);
      if step.Fail? {
        PullsFailureSticks(prs, author, i + 1);
        return Fail(step.message);
      }
      out := step.value;
    }
    assert prs[..|prs|] == prs;
    r := Ok(out);
  }

  /** One more pull extends the loop by one `PullStep`. */
  lemma {:induction false} PullsByAuthorNext(prs: seq<Json>, author: Json, i: nat)
    requires i < |prs| && PullsByAuthor(prs[..i], author).Ok?
    ensures PullsByAuthor(prs[..i + 1], author) == PullStep(PullsByAuthor(prs[..i], author).value, prs[i], author)
  {
    assert prs[..i + 1][..i] == prs[..i];
  }

  /** Once a pull raises, the whole loop raises with that message. */
  lemma {:induction false} PullsFailureSticks(prs: seq<Json>, author: Json, n: nat)
    requires n <= |prs| && PullsByAuthor(prs[..n], author).Fail?
    ensures PullsByAuthor(prs, author) == PullsByAuthor(prs[..n], author)
    decreases |prs| - n
  {
    if n < |prs| {
      assert prs[..n + 1][..n] == prs[..n];
      PullsFailureSticks(prs, author, n + 1);
    } else {
      assert prs[..n] == prs;
    }
  }

  /** What reaches the network, after the local argument handling. */
  datatype Request =
    | ListRepos(user: Json)
    | SearchCode(query: Json)
    | GetFile(ownerRepo: Json, path: Json, ref: Json)
    | GetReadme(owner: string, repo: string, ref: Json)
    | ListCommits(owner: string, repo: string, params: Dict)
    | GetCommit(owner: string, repo: string, sha: Json)
    | ListPulls(owner: string, repo: string, params: Dict)
    | GetPull(owner: string, repo: string, number: Json)
    | Blame(owner: string, repo: string, path: Json, ref: Json)
}
