/**
 * The pure parts of the program's start-up report (cmd/wecom-home-ops/main.go):
 * the de-duplicated recipient list, the Qinglong instance labels, the build
 * information line and the joined callback URLs.
 */
module Startup {

  import opened Wrappers
  import opened Text
  import Config

  // ---------------------------------------------------------------------
  // uniqueNonEmpty
  // ---------------------------------------------------------------------

  /** The trimmed form of every input. */
  function Trims(ss: seq<string>): seq<string> {
    seq(|ss|, j requires 0 <= j < |ss| => TrimSpace(ss[j]))
  }

  /**
   * What the uniqueNonEmpty loop has collected after the first n trimmed
   * inputs: each one, unless it is empty or already collected.
   */
  function Kept(ts: seq<string>, n: nat): seq<string>
    requires n <= |ts|
  {
    if n == 0 then []
    else
      var prev := Kept(ts, n - 1);
      var v := ts[n - 1];
      if v == [] || v in prev then prev else prev + [v]
  }

  /**
   * uniqueNonEmpty: `isNil` is the nil slice returned for an empty input;
   * otherwise the collected values in order.
   */
  method UniqueNonEmpty(ss: seq<string>) returns (out: seq<string>, isNil: bool)
    ensures isNil <==> |ss| == 0
    ensures out == Kept(Trims(ss), |ss|)
  {
    if |ss| == 0 {
      return [], true;
    }
    isNil := false;
    ghost var ts := Trims(ss);
    var seen: set<string> := {};
    out := [];
    for i := 0 to |ss|
      invariant out == Kept(ts, i)
      invariant forall v :: v in seen <==> v in out
    {
      var v := TrimSpace(ss[i]);
      assert v == ts[i];
      if v != [] && v !in seen {
        seen := seen + {v};
        out := out + [v];
      }
    }
  }

  /** Later steps only append: what is kept after m inputs is a prefix of what is kept after n. */
  lemma {:induction false} KeptGrows(ts: seq<string>, m: nat, n: nat)
    requires m <= n <= |ts|
    ensures Kept(ts, m) <= Kept(ts, n)
  {
    if m < n {
      KeptGrows(ts, m, n - 1);
    }
  }

  /** Every kept value is non-empty and one of the first n inputs. */
  lemma {:induction false} KeptSound(ts: seq<string>, n: nat, v: string)
    requires n <= |ts| && v in Kept(ts, n)
    ensures v != []
    ensures exists j :: 0 <= j < n && ts[j] == v
  {
    if v in Kept(ts, n - 1) {
      KeptSound(ts, n - 1, v);
    } else {
      assert ts[n - 1] == v;
    }
  }

  /** Every non-empty input among the first n is kept. */
  lemma {:induction false} KeptComplete(ts: seq<string>, n: nat, j: nat)
    requires j < n <= |ts| && ts[j] != []
    ensures ts[j] in Kept(ts, n)
  {
    if j < n - 1 {
      KeptComplete(ts, n - 1, j);
      KeptGrows(ts, n - 1, n);
    }
  }

  /** No value is kept twice. */
  lemma {:induction false} KeptDistinct(ts: seq<string>, n: nat)
    requires n <= |ts|
    ensures forall a, b :: 0 <= a < b < |Kept(ts, n)| ==> Kept(ts, n)[a] != Kept(ts, n)[b]
  {
    if n > 0 {
      KeptDistinct(ts, n - 1);
    }
  }

  /**
   * First-occurrence order: the value kept in position a < b already occurs
   * among the inputs before any input equal to the value kept in position b.
   */
  lemma {:induction false} KeptInFirstOccurrenceOrder(ts: seq<string>, n: nat, a: nat, b: nat, j: nat)
    requires n <= |ts| && a < b < |Kept(ts, n)| && j < n
    requires ts[j] == Kept(ts, n)[b]
    ensures exists i :: 0 <= i < j && ts[i] == Kept(ts, n)[a]
  {
    var k := Kept(ts, n);
    var prev := Kept(ts, n - 1);
    if b < |prev| {
      assert k[a] == prev[a] && k[b] == prev[b];
      if j < n - 1 {
        KeptInFirstOccurrenceOrder(ts, n - 1, a, b, j);
      } else {
        KeptSound(ts, n - 1, prev[b]);
        var j' :| 0 <= j' < n - 1 && ts[j'] == prev[b];
        KeptInFirstOccurrenceOrder(ts, n - 1, a, b, j');
      }
    } else {
      assert k == prev + [ts[n - 1]] && k[a] == prev[a];
      KeptSound(ts, n - 1, prev[a]);
      if j < n - 1 {
        KeptComplete(ts, n - 1, j);
      }
    }
  }

  /** Nothing is kept exactly when every input is empty. */
  lemma KeptEmptyIff(ts: seq<string>)
    ensures Kept(ts, |ts|) == [] <==> forall j :: 0 <= j < |ts| ==> ts[j] == []
  {
    if Kept(ts, |ts|) == [] {
      forall j | 0 <= j < |ts| && ts[j] != []
        ensures false
      {
        KeptComplete(ts, |ts|, j);
      }
    } else {
      KeptSound(ts, |ts|, Kept(ts, |ts|)[0]);
    }
  }

  /** The values uniqueNonEmpty returns are trimmed inputs and trim to themselves. */
  lemma UniqueValuesAreTrimmed(ss: seq<string>, v: string)
    requires v in Kept(Trims(ss), |ss|)
    ensures v != [] && TrimSpace(v) == v
    ensures exists j :: 0 <= j < |ss| && TrimSpace(ss[j]) == v
  {
    KeptSound(Trims(ss), |ss|, v);
    var j :| 0 <= j < |ss| && Trims(ss)[j] == v;
    TrimSpaceIdempotent(ss[j]);
  }

  /** Every input trims to the empty string. */
  predicate AllBlank(ss: seq<string>) {
    forall j :: 0 <= j < |ss| ==> TrimSpace(ss[j]) == []
  }

  /** The trimmed forms are all empty exactly when every input is blank. */
  lemma TrimsAllEmptyIff(ss: seq<string>)
    ensures (forall j :: 0 <= j < |ss| ==> Trims(ss)[j] == []) <==> AllBlank(ss)
  {
    assert forall j :: 0 <= j < |ss| ==> Trims(ss)[j] == TrimSpace(ss[j]);
  }

  /**
   * The recipient of the start-up notification: the de-duplicated allowed
   * user IDs joined by "|", or nothing (no notification) when none is left.
   */
  function Recipients(allowed: seq<string>): (r: Option<string>)
    ensures r.None? <==> AllBlank(allowed)
  {
    var ts := Trims(allowed);
    KeptEmptyIff(ts);
    TrimsAllEmptyIff(allowed);
    var users := Kept(ts, |allowed|);
    if users == [] then None else Some(Join(users, "|"))
  }

  // ---------------------------------------------------------------------
  // Qinglong instance labels
  // ---------------------------------------------------------------------

  /** The label for a trimmed id and name: "id(name)", the id, the name, or nothing. */
  function LabelOf(id: string, name: string): (r: Option<string>)
    ensures r.None? <==> id == [] && name == []
    ensures r.Some? ==> r.value != []
    ensures id != [] ==> r.Some? && HasPrefix(r.value, id)
    ensures id == [] && name != [] ==> r == Some(name)
  {
    if id != [] && name != [] then Some(id + "(" + name + ")")
    else if id != [] then Some(id)
    else if name != [] then Some(name)
    else None
  }

  /** The label of an instance, from its trimmed id and name. */
  function Label(x: Config.QinglongInstance): Option<string> {
    LabelOf(TrimSpace(x.id), TrimSpace(x.name))
  }

  /** The label of every instance. */
  function LabelsOf(ins: seq<Config.QinglongInstance>): seq<Option<string>> {
    seq(|ins|, j requires 0 <= j < |ins| => Label(ins[j]))
  }

  /** The present values, in order. */
  function Somes(ls: seq<Option<string>>): seq<string> {
    if ls == [] then []
    else match ls[|ls| - 1]
      case None => Somes(ls[..|ls| - 1])
      case Some(l) => Somes(ls[..|ls| - 1]) + [l]
  }

  /** The label loop of the start-up message. */
  method InstanceLabels(ins: seq<Config.QinglongInstance>) returns (labels: seq<string>)
    ensures labels == Somes(LabelsOf(ins))
  {
    ghost var ls := LabelsOf(ins);
    labels := [];
    for i := 0 to |ins|
      invariant labels == Somes(ls[..i])
    {
      assert ls[..i + 1][..i] == ls[..i];
      var id := TrimSpace(ins[i].id);
      var name := TrimSpace(ins[i].name);
      assert ls[i] == LabelOf(id, name);
      if id != [] && name != [] {
        labels := labels + [id + "(" + name + ")"];
      } else if id != [] {
        labels := labels + [id];
      } else if name != [] {
        labels := labels + [name];
      }
    }
    assert ls[..|ins|] == ls;
  }

  /** One label per entry at most, and exactly one each unless some entry has none. */
  lemma {:induction false} SomesCount(ls: seq<Option<string>>)
    ensures |Somes(ls)| <= |ls|
    ensures |Somes(ls)| == |ls| <==> forall j :: 0 <= j < |ls| ==> ls[j].Some?
  {
    if ls != [] {
      var init := ls[..|ls| - 1];
      SomesCount(init);
      assert forall j :: 0 <= j < |init| ==> init[j] == ls[j];
    }
  }

  /** Every instance is labelled unless it has neither an id nor a name. */
  lemma LabelsCount(ins: seq<Config.QinglongInstance>)
    ensures |Somes(LabelsOf(ins))| <= |ins|
    ensures |Somes(LabelsOf(ins))| == |ins| <==>
      forall j :: 0 <= j < |ins| ==> TrimSpace(ins[j].id) != [] || TrimSpace(ins[j].name) != []
  {
    SomesCount(LabelsOf(ins));
    forall j | 0 <= j < |ins|
      ensures LabelsOf(ins)[j].Some? <==> TrimSpace(ins[j].id) != [] || TrimSpace(ins[j].name) != []
    {
    }
  }

  /** The id read back from a label: the text before its first "(", or all of it. */
  function IdOfLabel(l: string): (id: string)
    ensures id <= l
  {
    match IndexOf(l, '(')
      case Some(k) => l[..k]
      case None => l
  }

  /** With an id free of "(", reading the id back from the label gives the id. */
  lemma LabelCutsAtId(id: string, name: string)
    requires id != [] && '(' !in id
    ensures IdOfLabel(LabelOf(id, name).value) == id
  {
    if name != [] {
      IndexOfAfter(id, '(', name + ")");
      assert LabelOf(id, name).value == id + ['('] + (name + ")");
    } else {
      assert IndexOf(id, '(').None?;
    }
  }

  /** The instance ID pattern admits no white space. */
  lemma PatternIdIsTrimmed(id: string)
    requires Config.IdPattern(id)
    ensures TrimSpace(id) == id
  {
    TrimSpaceOfTrimmed(id);
  }

  /** An ID matching the instance ID pattern is not empty and holds no "(". */
  lemma PatternIdHasNoParen(id: string)
    requires Config.IdPattern(id)
    ensures id != [] && '(' !in id
  {
    forall k | 0 <= k < |id|
      ensures id[k] != '('
    {
    }
  }

  /** An id that is non-empty, trimmed and free of "(" is read back from the label. */
  lemma CleanIdReadBack(x: Config.QinglongInstance)
    requires x.id != [] && '(' !in x.id && TrimSpace(x.id) == x.id
    ensures Label(x).Some? && IdOfLabel(Label(x).value) == x.id
  {
    LabelCutsAtId(x.id, TrimSpace(x.name));
  }

  /**
   * For an instance whose ID passed configuration validation, the ID is
   * read back from its label unchanged.
   */
  lemma ValidLabelRecoversId(x: Config.QinglongInstance)
    requires Config.IdPattern(x.id)
    ensures Label(x).Some? && IdOfLabel(Label(x).value) == x.id
  {
    PatternIdIsTrimmed(x.id);
    PatternIdHasNoParen(x.id);
    CleanIdReadBack(x);
  }

  // ---------------------------------------------------------------------
  // buildInfoSummary
  // ---------------------------------------------------------------------

  /** One key/value pair of the embedded build settings. */
  datatype Setting = Setting(key: string, value: string)

  /** What debug.ReadBuildInfo reports: the main module's version and the build settings. */
  datatype BuildInfo = BuildInfo(mainVersion: string, settings: seq<Setting>)

  /** The raw value of the last setting with this key, if any. */
  function LastSetting(settings: seq<Setting>, key: string): Option<string> {
    if settings == [] then None
    else if settings[|settings| - 1].key == key then Some(settings[|settings| - 1].value)
    else LastSetting(settings[..|settings| - 1], key)
  }

  /** The trimmed value of the last setting with this key, or "" when there is none. */
  function SettingValue(settings: seq<Setting>, key: string): string {
    match LastSetting(settings, key)
      case None => []
      case Some(v) => TrimSpace(v)
  }

  /** The last setting with the key decides; without one there is no value. */
  lemma {:induction false} LastSettingIsLast(settings: seq<Setting>, key: string)
    ensures LastSetting(settings, key).None? <==> forall k :: 0 <= k < |settings| ==> settings[k].key != key
    ensures forall k :: 0 <= k < |settings| && settings[k].key == key
                        && (forall k' :: k < k' < |settings| ==> settings[k'].key != key)
                        ==> LastSetting(settings, key) == Some(settings[k].value)
  {
    if settings != [] {
      var init := settings[..|settings| - 1];
      LastSettingIsLast(init, key);
      assert forall k :: 0 <= k < |init| ==> init[k] == settings[k];
    }
  }

  /** The version part: the trimmed main-module version unless it is empty or "(devel)". */
  function VersionPart(v: string): (r: string)
    ensures r == [] || r == TrimSpace(v)
    ensures r == [] <==> TrimSpace(v) == [] || TrimSpace(v) == "(devel)"
  {
    var t := TrimSpace(v);
    if t == [] || t == "(devel)" then [] else t
  }

  /** The revision shortened to its first twelve characters. */
  function ShortRevision(r: string): (c: string)
    ensures |c| <= 12 && c <= r
    ensures c == r <==> |r| <= 12
  {
    if |r| > 12 then r[..12] else r
  }

  /** The one-element list of a non-empty part. */
  function Present(s: string): seq<string> {
    if s == [] then [] else [s]
  }

  /** The summary's parts in order: version, short revision, "dirty", build time. */
  function SummaryParts(version: string, revision: string, dirty: bool, buildTime: string): seq<string> {
    Present(version) + Present(ShortRevision(revision))
    + (if dirty then ["dirty"] else []) + Present(buildTime)
  }

  /** The parts for the reported build information; "dirty" stands for vcs.modified being "true". */
  function Parts(bi: BuildInfo): seq<string> {
    SummaryParts(VersionPart(bi.mainVersion), SettingValue(bi.settings, "vcs.revision"),
                 SettingValue(bi.settings, "vcs.modified") == "true", SettingValue(bi.settings, "vcs.time"))
  }

  /** buildInfoSummary as a function of what ReadBuildInfo returns (None when it fails). */
  function Summary(info: Option<BuildInfo>): string {
    match info
      case None => ""
      case Some(bi) => Join(Parts(bi), " ")
  }

  /** One more setting replaces the value of its own key only. */
  lemma SettingValueStep(settings: seq<Setting>, i: nat, key: string)
    requires i < |settings|
    ensures SettingValue(settings[..i + 1], key) ==
      if settings[i].key == key then TrimSpace(settings[i].value) else SettingValue(settings[..i], key)
  {
    assert settings[..i + 1][..i] == settings[..i];
  }

  /** The loop over the build settings: the last of each vcs key wins. */
  method ReadSettings(settings: seq<Setting>) returns (revision: string, modified: string, buildTime: string)
    ensures revision == SettingValue(settings, "vcs.revision")
    ensures modified == SettingValue(settings, "vcs.modified")
    ensures buildTime == SettingValue(settings, "vcs.time")
  {
    revision, modified, buildTime := [], [], [];
    for i := 0 to |settings|
      invariant revision == SettingValue(settings[..i], "vcs.revision")
      invariant modified == SettingValue(settings[..i], "vcs.modified")
      invariant buildTime == SettingValue(settings[..i], "vcs.time")
    {
      SettingValueStep(settings, i, "vcs.revision");
      SettingValueStep(settings, i, "vcs.modified");
      SettingValueStep(settings, i, "vcs.time");
      var s := settings[i];
      if s.key == "vcs.revision" {
        revision := TrimSpace(s.value);
      } else if s.key == "vcs.modified" {
        modified := TrimSpace(s.value);
      } else if s.key == "vcs.time" {
        buildTime := TrimSpace(s.value);
      }
    }
    assert settings[..|settings|] == settings;
  }

  /** The appends of buildInfoSummary: each part when present, in order. */
  method AssembleParts(version: string, revision: string, dirty: bool, buildTime: string) returns (parts: seq<string>)
    ensures parts == Present(version) + Present(revision) + (if dirty then ["dirty"] else []) + Present(buildTime)
  {
    parts := [];
    if version != [] {
      parts := parts + [version];
    }
    if revision != [] {
      parts := parts + [revision];
    }
    if dirty {
      parts := parts + ["dirty"];
    }
    if buildTime != [] {
      parts := parts + [buildTime];
    }
  }

  /** buildInfoSummary: the non-empty parts joined by single spaces. */
  method BuildInfoSummary(info: Option<BuildInfo>) returns (s: string)
    ensures s == Summary(info)
  {
    if info.None? {
      return "";
    }
    var bi := info.value;
    var version := TrimSpace(bi.mainVersion);
    if version == [] || version == "(devel)" {
      version := [];
    }
    assert version == VersionPart(bi.mainVersion);
    var revision, modified, buildTime := ReadSettings(bi.settings);
    ghost var fullRevision := revision;
    if |revision| > 12 {
      revision := revision[..12];
    }
    assert revision == ShortRevision(fullRevision);
    var dirty := modified == "true";
    var parts := AssembleParts(version, revision, dirty, buildTime);
    assert parts == Parts(bi);
    s := Join(parts, " ");
  }

  /** Every part is non-empty and there are at most four. */
  lemma PartsNonEmpty(version: string, revision: string, dirty: bool, buildTime: string)
    ensures |SummaryParts(version, revision, dirty, buildTime)| <= 4
    ensures forall k :: 0 <= k < |SummaryParts(version, revision, dirty, buildTime)| ==>
      SummaryParts(version, revision, dirty, buildTime)[k] != []
  {
  }

  /** Joining non-empty parts gives "" only for no parts, and starts with the first part. */
  lemma {:induction false} JoinOfNonEmpty(parts: seq<string>, sep: string)
    requires forall k :: 0 <= k < |parts| ==> parts[k] != []
    ensures Join(parts, sep) == [] <==> parts == []
    ensures parts != [] ==> HasPrefix(Join(parts, sep), parts[0])
  {
    if |parts| > 1 {
      assert Join(parts, sep) == parts[0] + (sep + Join(parts[1..], sep));
    }
  }

  /** The summary is empty exactly when the build information is missing or reports nothing worth showing. */
  lemma SummaryEmptyIff(info: Option<BuildInfo>)
    ensures Summary(info) == [] <==>
      info.None? ||
      (&& VersionPart(info.value.mainVersion) == []
       && SettingValue(info.value.settings, "vcs.revision") == []
       && SettingValue(info.value.settings, "vcs.modified") != "true"
       && SettingValue(info.value.settings, "vcs.time") == [])
  {
    if info.Some? {
      var bi := info.value;
      var v, r, d, t := VersionPart(bi.mainVersion), SettingValue(bi.settings, "vcs.revision"),
                        SettingValue(bi.settings, "vcs.modified") == "true", SettingValue(bi.settings, "vcs.time");
      PartsNonEmpty(v, r, d, t);
      JoinOfNonEmpty(Parts(bi), " ");
      assert ShortRevision(r) == [] <==> r == [];
    }
  }

  /** A shown version leads the summary. */
  lemma SummaryStartsWithVersion(bi: BuildInfo)
    requires VersionPart(bi.mainVersion) != []
    ensures HasPrefix(Summary(Some(bi)), VersionPart(bi.mainVersion))
  {
    var v, r, d, t := VersionPart(bi.mainVersion), SettingValue(bi.settings, "vcs.revision"),
                      SettingValue(bi.settings, "vcs.modified") == "true", SettingValue(bi.settings, "vcs.time");
    PartsNonEmpty(v, r, d, t);
    JoinOfNonEmpty(Parts(bi), " ");
  }

  /**
   * "dirty" is listed exactly when vcs.modified is "true" (provided no
   * other part happens to read "dirty").
   */
  lemma DirtyIffModified(bi: BuildInfo)
    requires VersionPart(bi.mainVersion) != "dirty" && SettingValue(bi.settings, "vcs.time") != "dirty"
    requires ShortRevision(SettingValue(bi.settings, "vcs.revision")) != "dirty"
    ensures "dirty" in Parts(bi) <==> SettingValue(bi.settings, "vcs.modified") == "true"
  {
    DirtyListedIff(VersionPart(bi.mainVersion), SettingValue(bi.settings, "vcs.revision"),
                   SettingValue(bi.settings, "vcs.modified") == "true", SettingValue(bi.settings, "vcs.time"));
  }

  /** "dirty" is among the parts exactly when the flag is set, if no other part reads "dirty". */
  lemma DirtyListedIff(version: string, revision: string, dirty: bool, buildTime: string)
    requires version != "dirty" && ShortRevision(revision) != "dirty" && buildTime != "dirty"
    ensures "dirty" in SummaryParts(version, revision, dirty, buildTime) <==> dirty
  {
  }

  // ---------------------------------------------------------------------
  // joinURLPath
  // ---------------------------------------------------------------------

  /** url.JoinPath on the trimmed base and path, the path's leading "/" dropped; "" on a parse error. */
  function JoinTrimmed(b: string, q: string, joinPath: (string, string) -> Option<string>): string {
    match joinPath(b, TrimPrefix(q, "/"))
      case None => []
      case Some(u) => u
  }

  /**
   * joinURLPath: both sides trimmed; empty when either is blank; otherwise
   * url.JoinPath (the parameter `joinPath`, None on a parse error) applied
   * to the base and the path without its leading "/".
   */
  function JoinUrlPath(base: string, p: string, joinPath: (string, string) -> Option<string>): (r: string)
    ensures IsBlank(base) || IsBlank(p) ==> r == []
  {
    BlankIffTrimsToEmpty(base);
    BlankIffTrimsToEmpty(p);
    var b := TrimSpace(base);
    var q := TrimSpace(p);
    if b == [] || q == [] then [] else JoinTrimmed(b, q, joinPath)
  }

  /** A path written with or without its leading "/" joins to the same URL. */
  lemma JoinIgnoresLeadingSlash(b: string, q: string, joinPath: (string, string) -> Option<string>)
    requires q == [] || q[0] != '/'
    ensures JoinTrimmed(b, "/" + q, joinPath) == JoinTrimmed(b, q, joinPath)
  {
    assert HasPrefix("/" + q, "/") && ("/" + q)[1..] == q;
    assert !HasPrefix(q, "/");
  }
}
