/**
 * Container lookup in the Unraid client: how the IDs and names the
 * GraphQL API reports are normalised, and how a name is resolved to a
 * container ID, with a short sorted list of known names when it is not
 * found. The container list is the already-decoded reply of the
 * `docker { containers }` query (or the failure of that query).
 */
module UnraidNames {
  import opened Wrappers
  import opened Text
  import Ordering

  /** A decoded JSON value, as Go's interface{} holds it after json.Unmarshal. */
  datatype Json =
    | JNull
    | JBool(b: bool)
    | JNumber(n: int)
    | JString(s: string)
    | JArray(items: seq<Json>)
    | JObject(fields: map<string, Json>)

  /** normalizePrefixedID: everything after the first ':', when there is one. */
  function NormalizePrefixedID(id: string): (r: string)
    ensures ':' !in id ==> r == id
    ensures ':' in id ==>
      var k := |id| - |r| - 1;
      0 <= k && id == id[..k] + ":" + r && ':' !in id[..k]
  {
    match IndexOf(id, ':')
    case None => id
    case Some(k) =>
      assert id == id[..k] + ":" + id[k + 1..];
      id[k + 1..]
  }

  /** A prefixed ID loses exactly its colon-free prefix: "docker:abc" becomes "abc". */
  lemma PrefixedIDDropsPrefix(prefix: string, rest: string)
    requires ':' !in prefix
    ensures NormalizePrefixedID(prefix + ":" + rest) == rest
  {
    IndexOfAfter(prefix, ':', rest);
  }

  /** normalizeName: trimmed, then at most one leading '/' removed. */
  function NormalizeName(name: string): string {
    TrimPrefix(TrimSpace(name), "/")
  }

  /** The normalised name is the trimmed name, less one leading '/' if it has one. */
  lemma NormalizeNameDropsOneSlash(name: string)
    ensures var t := TrimSpace(name);
      && (t != [] && t[0] == '/' ==> t == "/" + NormalizeName(name))
      && (t == [] || t[0] != '/' ==> NormalizeName(name) == t)
  {
    var t := TrimSpace(name);
    if t != [] && t[0] == '/' {
      assert HasPrefix(t, "/");
    }
  }

  /** TrimPrefix takes a single "/" off a name that starts with two. */
  lemma TrimPrefixTakesOneSlash(rest: string)
    ensures TrimPrefix("//" + rest, "/") == "/" + rest
  {
    var s := "//" + rest;
    assert s[..1] == "/";
    assert s[1..] == "/" + rest;
  }

  /** Only one slash goes: "//app" normalises to "/app", for any name that does not end in white space. */
  lemma OnlyOneSlashRemoved(rest: string)
    requires rest != [] && !IsSpace(rest[|rest| - 1])
    ensures NormalizeName("//" + rest) == "/" + rest
  {
    var s := "//" + rest;
    assert s[|s| - 1] == rest[|rest| - 1];
    TrimSpaceOfTrimmed(s);
    TrimPrefixTakesOneSlash(rest);
  }

  // ---------------------------------------------------------------------
  // normalizeContainerNames

  /** The string items of a JSON array, in order. */
  function StringItems(items: seq<Json>): (r: seq<string>)
    ensures |r| <= |items|
    ensures forall x :: x in r <==> JString(x) in items
  {
    if items == [] then []
    else
      var rest := StringItems(items[..|items| - 1]);
      assert items == items[..|items| - 1] + [items[|items| - 1]];
      match items[|items| - 1]
      case JString(s) => rest + [s]
      case _ => rest
  }

  /** Filtering keeps order: the items of a concatenation are the concatenated items. */
  lemma {:induction false} StringItemsAppend(a: seq<Json>, b: seq<Json>)
    ensures StringItems(a + b) == StringItems(a) + StringItems(b)
  {
    if b != [] {
      StringItemsAppend(a, b[..|b| - 1]);
      assert (a + b)[..|a + b| - 1] == a + b[..|b| - 1];
      assert (a + b)[|a + b| - 1] == b[|b| - 1];
    } else {
      assert a + b == a;
    }
  }

  /** The names a container reports: a string alone, or the strings of a list; nothing otherwise. */
  function ContainerNames(v: Json): (r: seq<string>)
    ensures v.JString? ==> r == [v.s]
    ensures v.JArray? ==> forall x :: x in r <==> JString(x) in v.items
    ensures !v.JString? && !v.JArray? ==> r == []
  {
    match v
    case JString(s) => [s]
    case JArray(items) => StringItems(items)
    case _ => []
  }

  /** normalizeContainerNames */
  method NormalizeContainerNames(v: Json) returns (r: seq<string>)
    ensures r == ContainerNames(v)
  {
    match v {
      case JString(s) =>
        return [s];
      case JArray(items) =>
        r := [];
        for i := 0 to |items|
          invariant r == StringItems(items[..i])
        {
          StringItemsAppend(items[..i], [items[i]]);
          assert items[..i + 1] == items[..i] + [items[i]];
          if items[i].JString? {
            r := r + [items[i].s];
          }
        }
        assert items[..|items|] == items;
      case _ =>
        return [];
    }
  }

  // ---------------------------------------------------------------------
  // findContainerIDByName

  datatype Container = Container(id: string, names: Json, state: string)

  function NormalizeAll(ns: seq<string>): (r: seq<string>)
    ensures |r| == |ns| && forall i :: 0 <= i < |ns| ==> r[i] == NormalizeName(ns[i])
  {
    if ns == [] then [] else NormalizeAll(ns[..|ns| - 1]) + [NormalizeName(ns[|ns| - 1])]
  }

  /** Every normalised name of every container, in the order the lookup visits them. */
  function AllNames(cs: seq<Container>): seq<string> {
    if cs == [] then []
    else AllNames(cs[..|cs| - 1]) + NormalizeAll(ContainerNames(cs[|cs| - 1].names))
  }

  /** One container's normalised names extend the list of those before it. */
  lemma AllNamesStep(cs: seq<Container>, i: nat)
    requires i < |cs|
    ensures AllNames(cs[..i + 1]) == AllNames(cs[..i]) + NormalizeAll(ContainerNames(cs[i].names))
  {
    assert cs[..i + 1][..i] == cs[..i];
  }

  /** The ID of the first container one of whose names normalises to `want`. */
  function FirstMatch(cs: seq<Container>, want: string): (r: Option<string>)
    ensures r.None? <==> want !in AllNames(cs)
  {
    if cs == [] then None
    else
      match FirstMatch(cs[..|cs| - 1], want)
      case Some(id) => Some(id)
      case None =>
        if want in NormalizeAll(ContainerNames(cs[|cs| - 1].names)) then Some(NormalizePrefixedID(cs[|cs| - 1].id))
        else None
  }

  /** A match found among the first k containers is the match among all of them. */
  lemma {:induction false} FirstMatchPrefix(cs: seq<Container>, k: nat, want: string)
    requires k <= |cs| && FirstMatch(cs[..k], want).Some?
    ensures FirstMatch(cs, want) == FirstMatch(cs[..k], want)
  {
    if k < |cs| {
      var init := cs[..|cs| - 1];
      assert init[..k] == cs[..k];
      FirstMatchPrefix(init, k, want);
    } else {
      assert cs[..k] == cs;
    }
  }

  /**
   * The lookup answers with the ID of the first container, in list order,
   * that has a name normalising to `want`, whatever follows it.
   */
  lemma FirstMatchIsFirst(cs: seq<Container>, i: nat, want: string)
    requires i < |cs|
    requires want in NormalizeAll(ContainerNames(cs[i].names)) && want !in AllNames(cs[..i])
    ensures FirstMatch(cs, want) == Some(NormalizePrefixedID(cs[i].id))
  {
    var p := cs[..i + 1];
    assert p[..|p| - 1] == cs[..i];
    assert FirstMatch(p, want) == Some(NormalizePrefixedID(cs[i].id));
    FirstMatchPrefix(cs, i + 1, want);
  }

  /** The distinct non-empty names, in first-occurrence order. */
  function Distinct(ns: seq<string>): (r: seq<string>)
    ensures forall i, j :: 0 <= i < j < |r| ==> r[i] != r[j]
    ensures forall x :: x in r <==> x in ns && x != ""
  {
    if ns == [] then []
    else
      var d := Distinct(ns[..|ns| - 1]);
      var x := ns[|ns| - 1];
      assert ns == ns[..|ns| - 1] + [x];
      if x == "" || x in d then d else d + [x]
  }

  /** Sorting keeps the elements and their number, and adds no repetition. */
  lemma SortKeepsElements(d: seq<string>)
    ensures var sorted := Ordering.SortStrings(d);
      && Ordering.Sorted(sorted)
      && |sorted| == |d|
      && (forall x :: x in sorted <==> x in d)
      && ((forall i, j :: 0 <= i < j < |d| ==> d[i] != d[j]) ==>
            forall i, j :: 0 <= i < j < |sorted| ==> sorted[i] != sorted[j])
  {
    var sorted := Ordering.SortStrings(d);
    Ordering.SortStringsCorrect(d);
    assert |sorted| == |d| by {
      assert |multiset(sorted)| == |multiset(d)|;
    }
    forall x ensures x in sorted <==> x in d {
      assert x in sorted <==> x in multiset(sorted);
      assert x in d <==> x in multiset(d);
    }
    if forall i, j :: 0 <= i < j < |d| ==> d[i] != d[j] {
      forall i, j | 0 <= i < j < |sorted| ensures sorted[i] != sorted[j] {
        if sorted[i] == sorted[j] {
          DistinctCountsOnce(d, sorted[i]);
          TwiceCountsTwice(sorted, i, j);
        }
      }
    }
  }

  /** Two equal positions count twice. */
  lemma TwiceCountsTwice(s: seq<string>, i: nat, j: nat)
    requires i < j < |s| && s[i] == s[j]
    ensures multiset(s)[s[i]] >= 2
  {
    assert s == s[..i] + [s[i]] + s[i + 1..j] + [s[j]] + s[j + 1..];
  }

  /** Names offered when the lookup fails: the first ten distinct names in sorted order. */
  const MaxExamples: nat := 10

  /** The first ten of a list in sorted order. */
  function SortedPrefix(d: seq<string>): seq<string> {
    var sorted := Ordering.SortStrings(d);
    if |sorted| > MaxExamples then sorted[..MaxExamples] else sorted
  }

  /**
   * The sorted prefix of a list without repetition: at most ten of its
   * elements, sorted, without repetition, none above an element left out,
   * and all of them when there are at most ten.
   */
  lemma SortedPrefixShape(d: seq<string>)
    requires forall i, j :: 0 <= i < j < |d| ==> d[i] != d[j]
    ensures var e := SortedPrefix(d);
      && |e| <= MaxExamples
      && Ordering.Sorted(e)
      && (forall i, j :: 0 <= i < j < |e| ==> e[i] != e[j])
      && (forall x :: x in e ==> x in d)
      && (forall x, y :: x in e && y in d && y !in e ==> Ordering.LexLeq(x, y))
      && (|d| <= MaxExamples ==> forall x :: x in d ==> x in e)
  {
    var sorted := Ordering.SortStrings(d);
    SortKeepsElements(d);
    var e := SortedPrefix(d);
    assert e == sorted[..|e|];
    forall x, y | x in e && y in d && y !in e ensures Ordering.LexLeq(x, y) {
      var i :| 0 <= i < |e| && e[i] == x;
      var j :| 0 <= j < |sorted| && sorted[j] == y;
      assert j >= |e|;
    }
  }

  function Examples(cs: seq<Container>): seq<string> {
    SortedPrefix(Distinct(AllNames(cs)))
  }

  /**
   * The example list holds at most ten names, sorted and without
   * repetition; each is a non-empty container name, none is above a name
   * left out, and when there are at most ten names all are listed.
   */
  lemma ExamplesShape(cs: seq<Container>)
    ensures var e := Examples(cs);
      && |e| <= MaxExamples
      && Ordering.Sorted(e)
      && (forall i, j :: 0 <= i < j < |e| ==> e[i] != e[j])
      && (forall x :: x in e ==> x != "" && x in AllNames(cs))
      && (forall x, y :: x in e && y in AllNames(cs) && y != "" && y !in e ==> Ordering.LexLeq(x, y))
      && (|Distinct(AllNames(cs))| <= MaxExamples ==>
            forall x :: x in AllNames(cs) && x != "" ==> x in e)
  {
    SortedPrefixShape(Distinct(AllNames(cs)));
  }

  /** A sequence without repetition holds each of its elements once. */
  lemma {:induction false} DistinctCountsOnce(s: seq<string>, x: string)
    requires forall i, j :: 0 <= i < j < |s| ==> s[i] != s[j]
    ensures multiset(s)[x] <= 1
  {
    if s != [] {
      var init := s[..|s| - 1];
      DistinctCountsOnce(init, x);
      assert s == init + [s[|s| - 1]];
      assert s[|s| - 1] !in init;
    }
  }

  datatype LookupError = LookupFailed(reason: string) | NotFound(name: string, examples: seq<string>)

  /** findContainerIDByName, over the decoded container list or the failure of that query. */
  function Lookup(fetched: Result<seq<Container>, string>, name: string): (r: Result<string, LookupError>)
    ensures fetched.Err? ==> r == Err(LookupFailed(fetched.error))
    ensures fetched.Ok? ==> (r.Ok? <==> NormalizeName(name) in AllNames(fetched.value))
  {
    match fetched
    case Err(reason) => Err(LookupFailed(reason))
    case Ok(cs) =>
      match FirstMatch(cs, NormalizeName(name))
      case Some(id) => Ok(id)
      case None => Err(NotFound(name, Examples(cs)))
  }

  /** The list of visited names grows by one normalised name. */
  lemma NamesStep(before: seq<string>, ns: seq<string>, j: nat)
    requires j < |ns|
    ensures before + NormalizeAll(ns[..j + 1]) == (before + NormalizeAll(ns[..j])) + [NormalizeName(ns[j])]
  {
    assert ns[..j + 1][..j] == ns[..j];
  }

  /** One more visited name joins the distinct list unless it is empty or already there. */
  lemma DistinctStep(a: seq<string>, x: string)
    ensures Distinct(a + [x]) == if x == "" || x in Distinct(a) then Distinct(a) else Distinct(a) + [x]
  {
    assert (a + [x])[..|a + [x]| - 1] == a;
  }

  /** The elements of a sequence, as a set. */
  function Elems(s: seq<string>): set<string> {
    set x | x in s
  }

  /** Normalising one more name extends the normalised list by it. */
  lemma NormalizeAllStep(ns: seq<string>, j: nat)
    requires j < |ns|
    ensures NormalizeAll(ns[..j + 1]) == NormalizeAll(ns[..j]) + [NormalizeName(ns[j])]
  {
    assert ns[..j + 1][..j] == ns[..j];
  }

  /** What the inner loop's list of names becomes after visiting one more name. */
  lemma VisitStep(before: seq<string>, ns: seq<string>, j: nat)
    requires j < |ns|
    ensures var nn := NormalizeName(ns[j]);
      Distinct(before + NormalizeAll(ns[..j + 1])) ==
        var d := Distinct(before + NormalizeAll(ns[..j]));
        if nn == "" || nn in d then d else d + [nn]
  {
    NormalizeAllStep(ns, j);
    assert before + NormalizeAll(ns[..j + 1]) == (before + NormalizeAll(ns[..j])) + [NormalizeName(ns[j])];
    DistinctStep(before + NormalizeAll(ns[..j]), NormalizeName(ns[j]));
  }

  /** Lists a visited name unless it is empty or already listed. */
  method NoteName(nn: string, seen: set<string>, candidates: seq<string>)
    returns (seen': set<string>, candidates': seq<string>)
    requires seen == Elems(candidates)
    ensures candidates' == if nn == "" || nn in candidates then candidates else candidates + [nn]
    ensures seen' == Elems(candidates')
  {
    seen', candidates' := seen, candidates;
    if nn != "" && nn !in seen {
      seen' := seen + {nn};
      candidates' := candidates + [nn];
    }
  }

  /**
   * The inner loop of the lookup over one container's names: stops at the
   * wanted name, otherwise lists each new non-empty name once.
   */
  method VisitNames(ns: seq<string>, ghost before: seq<string>, want: string,
                    seen: set<string>, candidates: seq<string>)
    returns (found: bool, seen': set<string>, candidates': seq<string>)
    requires candidates == Distinct(before) && seen == Elems(candidates)
    ensures found <==> want in NormalizeAll(ns)
    ensures !found ==> candidates' == Distinct(before + NormalizeAll(ns)) && seen' == Elems(candidates')
  {
    seen', candidates' := seen, candidates;
    assert ns[..0] == [] && before + [] == before;
    for j := 0 to |ns|
      invariant candidates' == Distinct(before + NormalizeAll(ns[..j]))
      invariant seen' == Elems(candidates')
      invariant want !in NormalizeAll(ns[..j])
    {
      var nn := NormalizeName(ns[j]);
      NormalizeAllStep(ns, j);
      VisitStep(before, ns, j);
      if nn == want {
        assert nn == NormalizeAll(ns)[j];
        return true, seen', candidates';
      }
      seen', candidates' := NoteName(nn, seen', candidates');
    }
    assert ns[..|ns|] == ns;
    return false, seen', candidates';
  }

  /** The lookup with its visiting loops and the `seen` set of names already listed. */
  method FindContainerIDByName(fetched: Result<seq<Container>, string>, name: string)
    returns (r: Result<string, LookupError>)
    ensures r == Lookup(fetched, name)
  {
    if fetched.Err? {
      return Err(LookupFailed(fetched.error));
    }
    var cs := fetched.value;
    var seen: set<string> := {};
    var candidates: seq<string> := [];
    var want := NormalizeName(name);
    for i := 0 to |cs|
      invariant candidates == Distinct(AllNames(cs[..i]))
      invariant seen == Elems(candidates)
      invariant want !in AllNames(cs[..i])
    {
      var ns := NormalizeContainerNames(cs[i].names);
      var found;
      found, seen, candidates := VisitNames(ns, AllNames(cs[..i]), want, seen, candidates);
      if found {
        FirstMatchIsFirst(cs, i, want);
        return Ok(NormalizePrefixedID(cs[i].id));
      }
      AllNamesStep(cs, i);
    }
    assert cs[..|cs|] == cs;
    var sorted := Ordering.SortStrings(candidates);
    if |sorted| > MaxExamples {
      sorted := sorted[..MaxExamples];
    }
    return Err(NotFound(name, sorted));
  }
}
