/**
 * The service configuration: filling in defaults, mapping the log level,
 * and the validation that collects every problem of a loaded
 * configuration into one error.
 *
 * YAML decoding is not modelled (`Load` receives the decoded record or
 * the decoding failure), and whether a base URL parses with a scheme and
 * a host is the parameter `urlOk`.
 */
module Config {
  import opened Wrappers
  import opened Text

  datatype LogConfig = LogConfig(level: string)
  datatype ServerConfig = ServerConfig(listenAddr: string, baseUrl: string)
  datatype WeComConfig = WeComConfig(corpId: string, agentId: int, secret: string, token: string,
                                     encodingAesKey: string, apiBaseUrl: string)
  datatype UnraidConfig = UnraidConfig(endpoint: string, apiKey: string, origin: string, forceUpdateMutation: string)
  datatype QinglongInstance = QinglongInstance(id: string, name: string, baseUrl: string,
                                               clientId: string, clientSecret: string)
  datatype Config = Config(log: LogConfig, server: ServerConfig, wecom: WeComConfig, unraid: UnraidConfig,
                           instances: seq<QinglongInstance>, allowedUserIds: seq<string>)

  // ---------------------------------------------------------------------
  // Log level
  // ---------------------------------------------------------------------

  datatype Level = LevelDebug | LevelInfo | LevelWarn | LevelError

  /** The numeric severity slog gives each level. */
  function Severity(l: Level): int {
    match l
    case LevelDebug => -4
    case LevelInfo => 0
    case LevelWarn => 4
    case LevelError => 8
  }

  /** LogLevel.ToSlogLevel: a case-insensitive switch, unknown names meaning info. */
  function ToSlogLevel(level: string): Level {
    var s := ToLower(level);
    if s == "debug" then LevelDebug
    else if s == "info" || s == "" then LevelInfo
    else if s == "warn" || s == "warning" then LevelWarn
    else if s == "error" then LevelError
    else LevelInfo
  }

  /** The name each level is configured by. */
  function LevelName(l: Level): string {
    match l
    case LevelDebug => "debug"
    case LevelInfo => "info"
    case LevelWarn => "warn"
    case LevelError => "error"
  }

  lemma LowerOfLower(s: string)
    requires forall i :: 0 <= i < |s| ==> !('A' <= s[i] <= 'Z')
    ensures ToLower(s) == s
  {
  }

  /** Every level's own name selects it, and so does "warning". */
  lemma LevelNamesSelectTheirLevel(l: Level)
    ensures ToSlogLevel(LevelName(l)) == l
    ensures ToSlogLevel("warning") == LevelWarn
  {
    LowerOfLower(LevelName(l));
    LowerOfLower("warning");
  }

  /** Two spellings that differ only in ASCII case select the same level. */
  lemma LevelIgnoresCase(a: string, b: string)
    requires |a| == |b| && forall i :: 0 <= i < |a| ==> LowerChar(a[i]) == LowerChar(b[i])
    ensures ToSlogLevel(a) == ToSlogLevel(b)
  {
    assert ToLower(a) == ToLower(b);
  }

  /** A name that is none of the known ones falls back to info. */
  lemma UnknownLevelIsInfo(level: string)
    requires forall l: Level :: ToLower(level) != LevelName(l)
    requires ToLower(level) != "warning"
    ensures ToSlogLevel(level) == LevelInfo
  {
    assert ToLower(level) != LevelName(LevelDebug);
    assert ToLower(level) != LevelName(LevelWarn);
    assert ToLower(level) != LevelName(LevelError);
  }

  // ---------------------------------------------------------------------
  // Defaults
  // ---------------------------------------------------------------------

  const DefaultLevel: string := "info"
  const DefaultListenAddr: string := ":8080"
  const DefaultApiBaseUrl: string := "https://qyapi.weixin.qq.com/cgi-bin"
  const DefaultOrigin: string := "daily-help"

  function OrDefault(s: string, d: string): (r: string)
    ensures s != "" ==> r == s
    ensures s == "" ==> r == d
  {
    if s == "" then d else s
  }

  /** The configuration after applyDefaults: the four defaulted fields filled when empty, all else kept. */
  function WithDefaults(cfg: Config): (r: Config)
    ensures r.log.level == OrDefault(cfg.log.level, DefaultLevel)
    ensures r.server == cfg.server.(listenAddr := OrDefault(cfg.server.listenAddr, DefaultListenAddr))
    ensures r.wecom == cfg.wecom.(apiBaseUrl := OrDefault(cfg.wecom.apiBaseUrl, DefaultApiBaseUrl))
    ensures r.unraid == cfg.unraid.(origin := OrDefault(cfg.unraid.origin, DefaultOrigin))
    ensures r.instances == cfg.instances && r.allowedUserIds == cfg.allowedUserIds
  {
    cfg.(log := cfg.log.(level := OrDefault(cfg.log.level, DefaultLevel)),
         server := cfg.server.(listenAddr := OrDefault(cfg.server.listenAddr, DefaultListenAddr)),
         wecom := cfg.wecom.(apiBaseUrl := OrDefault(cfg.wecom.apiBaseUrl, DefaultApiBaseUrl)),
         unraid := cfg.unraid.(origin := OrDefault(cfg.unraid.origin, DefaultOrigin)))
  }

  /** applyDefaults, filling one empty field after another. */
  method ApplyDefaults(cfg: Config) returns (r: Config)
    ensures r == WithDefaults(cfg)
  {
    r := cfg;
    if r.log.level == "" {
      r := r.(log := r.log.(level := DefaultLevel));
    }
    if r.server.listenAddr == "" {
      r := r.(server := r.server.(listenAddr := DefaultListenAddr));
    }
    if r.wecom.apiBaseUrl == "" {
      r := r.(wecom := r.wecom.(apiBaseUrl := DefaultApiBaseUrl));
    }
    if r.unraid.origin == "" {
      r := r.(unraid := r.unraid.(origin := DefaultOrigin));
    }
  }

  /** Filling defaults twice changes nothing more. */
  lemma DefaultsIdempotent(cfg: Config)
    ensures WithDefaults(WithDefaults(cfg)) == WithDefaults(cfg)
  {
  }

  /** A configuration whose defaulted fields are all set is left as it is. */
  lemma DefaultsKeepSetFields(cfg: Config)
    requires cfg.log.level != "" && cfg.server.listenAddr != ""
    requires cfg.wecom.apiBaseUrl != "" && cfg.unraid.origin != ""
    ensures WithDefaults(cfg) == cfg
  {
  }

  // ---------------------------------------------------------------------
  // Validation
  // ---------------------------------------------------------------------

  datatype Field =
    | ListenAddr | CorpId | AgentId | Secret | Token | EncodingAesKey | ApiBaseUrl
    | UnraidEndpoint | UnraidApiKey

  datatype InstanceField = IdField | NameField | BaseUrlField | ClientIdField | ClientSecretField

  datatype Problem =
    | Missing(field: Field)
    | InstanceBlank(index: nat, which: InstanceField)
    | InstanceIdMalformed(index: nat)
    | InstanceIdRepeated(index: nat)
    | InstanceBaseUrlMalformed(index: nat)
    | NoAllowedUsers
    | NoBackend

  /** Unraid counts as configured when its endpoint or its API key is non-blank. */
  predicate HasUnraid(cfg: Config) {
    !IsBlank(cfg.unraid.endpoint) || !IsBlank(cfg.unraid.apiKey)
  }

  /** Whether each top-level field is missing. */
  datatype FieldFlags = FieldFlags(listenAddr: bool, corpId: bool, agentId: bool, secret: bool, token: bool,
                                   encodingAesKey: bool, apiBaseUrl: bool, unraidEndpoint: bool, unraidApiKey: bool)

  /** The flag of one field. */
  function Flag(b: FieldFlags, f: Field): bool {
    match f
    case ListenAddr => b.listenAddr
    case CorpId => b.corpId
    case AgentId => b.agentId
    case Secret => b.secret
    case Token => b.token
    case EncodingAesKey => b.encodingAesKey
    case ApiBaseUrl => b.apiBaseUrl
    case UnraidEndpoint => b.unraidEndpoint
    case UnraidApiKey => b.unraidApiKey
  }

  /** The emptiness test of each required field; the Unraid pair is required only when Unraid is configured. */
  function FlagsFor(cfg: Config, hasUnraid: bool): FieldFlags {
    FieldFlags(cfg.server.listenAddr == "", cfg.wecom.corpId == "", cfg.wecom.agentId == 0,
               cfg.wecom.secret == "", cfg.wecom.token == "", cfg.wecom.encodingAesKey == "",
               cfg.wecom.apiBaseUrl == "", hasUnraid && cfg.unraid.endpoint == "", hasUnraid && cfg.unraid.apiKey == "")
  }

  /** A required top-level field that is empty, the Unraid pair only when Unraid is configured. */
  predicate MissingGiven(cfg: Config, hasUnraid: bool, f: Field) {
    Flag(FlagsFor(cfg, hasUnraid), f)
  }

  /** A required top-level field that is empty. */
  predicate FieldMissing(cfg: Config, f: Field) {
    MissingGiven(cfg, HasUnraid(cfg), f)
  }

  predicate AsciiAlnum(c: char) {
    ('a' <= c <= 'z') || ('A' <= c <= 'Z') || ('0' <= c <= '9')
  }

  /** The instance ID pattern ^[a-zA-Z0-9][a-zA-Z0-9_-]{0,31}$ as a predicate on characters. */
  predicate IdPattern(id: string) {
    && 1 <= |id| <= 32
    && AsciiAlnum(id[0])
    && forall k :: 1 <= k < |id| ==> AsciiAlnum(id[k]) || id[k] == '_' || id[k] == '-'
  }

  /** The problem `p` when `bad` holds, else nothing. */
  function Check(bad: bool, p: Problem): seq<Problem> {
    if bad then [p] else []
  }

  /** The top-level fields in the order validate checks them. */
  function FieldAt(k: nat): Field
    requires k < 9
  {
    match k
    case 0 => ListenAddr
    case 1 => CorpId
    case 2 => AgentId
    case 3 => Secret
    case 4 => Token
    case 5 => EncodingAesKey
    case 6 => ApiBaseUrl
    case 7 => UnraidEndpoint
    case _ => UnraidApiKey
  }

  /** Each field's place in that order. */
  function FieldIndex(f: Field): (k: nat)
    ensures k < 9 && FieldAt(k) == f
  {
    match f
    case ListenAddr => 0
    case CorpId => 1
    case AgentId => 2
    case Secret => 3
    case Token => 4
    case EncodingAesKey => 5
    case ApiBaseUrl => 6
    case UnraidEndpoint => 7
    case UnraidApiKey => 8
  }

  /** The check of the k-th field (none past the last). */
  function FieldCheckOf(b: FieldFlags): nat -> seq<Problem> {
    (k: nat) => if k < 9 then Check(Flag(b, FieldAt(k)), Missing(FieldAt(k))) else []
  }

  /** The problems the nine field checks report, in order. */
  function Reported(b: FieldFlags): seq<Problem> {
    Check(b.listenAddr, Missing(ListenAddr)) + Check(b.corpId, Missing(CorpId)) + Check(b.agentId, Missing(AgentId))
    + Check(b.secret, Missing(Secret)) + Check(b.token, Missing(Token)) + Check(b.encodingAesKey, Missing(EncodingAesKey))
    + Check(b.apiBaseUrl, Missing(ApiBaseUrl)) + Check(b.unraidEndpoint, Missing(UnraidEndpoint))
    + Check(b.unraidApiKey, Missing(UnraidApiKey))
  }

  /** The first five checks are the checks of the first five fields. */
  lemma HeadInFieldOrder(b: FieldFlags)
    ensures Chunks(FieldCheckOf(b), 5)
      == Check(b.listenAddr, Missing(ListenAddr)) + Check(b.corpId, Missing(CorpId)) + Check(b.agentId, Missing(AgentId))
         + Check(b.secret, Missing(Secret)) + Check(b.token, Missing(Token))
  {
    var c := FieldCheckOf(b);
    assert Chunks(c, 3) == Check(b.listenAddr, Missing(ListenAddr)) + Check(b.corpId, Missing(CorpId)) + Check(b.agentId, Missing(AgentId));
  }

  /** The nine checks are the checks of the fields in order. */
  lemma ReportedInFieldOrder(b: FieldFlags)
    ensures Reported(b) == Chunks(FieldCheckOf(b), 9)
  {
    var c := FieldCheckOf(b);
    HeadInFieldOrder(b);
    assert Chunks(c, 7) == Chunks(c, 5) + Check(b.encodingAesKey, Missing(EncodingAesKey)) + Check(b.apiBaseUrl, Missing(ApiBaseUrl));
  }

  /** The top-level field checks in the order they are made, given whether Unraid is configured. */
  function FieldFindings(cfg: Config, hasUnraid: bool): seq<Problem> {
    Reported(FlagsFor(cfg, hasUnraid))
  }

  /** The top-level field checks. */
  function FieldProblems(cfg: Config): seq<Problem> {
    FieldFindings(cfg, HasUnraid(cfg))
  }

  /** The outcome of each check of one instance. */
  datatype InstanceFlags = InstanceFlags(idBlank: bool, idMalformed: bool, idTaken: bool, nameBlank: bool,
                         urlBlank: bool, urlMalformed: bool, clientIdBlank: bool, clientSecretBlank: bool)

  /** The problems of instance `i` in the order they are made: a blank ID or URL skips its other checks. */
  function Findings(i: nat, f: InstanceFlags): seq<Problem> {
    (if f.idBlank then [InstanceBlank(i, IdField)]
     else Check(f.idMalformed, InstanceIdMalformed(i)) + Check(f.idTaken, InstanceIdRepeated(i)))
    + Check(f.nameBlank, InstanceBlank(i, NameField))
    + (if f.urlBlank then [InstanceBlank(i, BaseUrlField)]
       else Check(f.urlMalformed, InstanceBaseUrlMalformed(i)))
    + Check(f.clientIdBlank, InstanceBlank(i, ClientIdField))
    + Check(f.clientSecretBlank, InstanceBlank(i, ClientSecretField))
  }

  /** Every check of an instance passes. */
  predicate Clean(f: InstanceFlags) {
    && !f.idBlank && !f.idMalformed && !f.idTaken && !f.nameBlank
    && !f.urlBlank && !f.urlMalformed && !f.clientIdBlank && !f.clientSecretBlank
  }

  /** An instance is reported exactly when one of its checks fails. */
  lemma FindingsEmptyIff(i: nat, f: InstanceFlags)
    ensures Findings(i, f) == [] <==> Clean(f)
  {
  }

  /** A problem about one of the instances. */
  predicate AboutInstance(p: Problem) {
    p.InstanceBlank? || p.InstanceIdMalformed? || p.InstanceIdRepeated? || p.InstanceBaseUrlMalformed?
  }

  /** What an instance's checks report is about that instance. */
  lemma FindingsAreAboutInstance(i: nat, f: InstanceFlags, p: Problem)
    requires p in Findings(i, f)
    ensures AboutInstance(p) && p.index == i
  {
  }

  /** Instance `i` repeats the non-blank ID of an earlier instance. */
  predicate IdTaken(ins: seq<QinglongInstance>, i: nat)
    requires i < |ins|
  {
    exists j :: 0 <= j < i && !IsBlank(ins[j].id) && ins[j].id == ins[i].id
  }

  /** The outcome of each check of instance `i`. */
  function FlagsOf(ins: seq<QinglongInstance>, i: nat, urlOk: string -> bool): InstanceFlags
    requires i < |ins|
  {
    var x := ins[i];
    InstanceFlags(IsBlank(x.id), !IdPattern(x.id), IdTaken(ins, i), IsBlank(x.name),
          IsBlank(x.baseUrl), !urlOk(x.baseUrl), IsBlank(x.clientId), IsBlank(x.clientSecret))
  }

  /** The problems of instance `i`. */
  function InstanceCheck(ins: seq<QinglongInstance>, i: nat, urlOk: string -> bool): seq<Problem>
    requires i < |ins|
  {
    Findings(i, FlagsOf(ins, i, urlOk))
  }

  /** The checks of each instance, by index (none past the end). */
  function CheckOf(ins: seq<QinglongInstance>, urlOk: string -> bool): nat -> seq<Problem> {
    (i: nat) => if i < |ins| then InstanceCheck(ins, i, urlOk) else []
  }

  /** The problems of chunks 0 to n - 1, in order. */
  function Chunks(chunk: nat -> seq<Problem>, n: nat): seq<Problem> {
    if n == 0 then [] else Chunks(chunk, n - 1) + chunk(n - 1)
  }

  lemma {:induction false} ChunkIncluded(chunk: nat -> seq<Problem>, n: nat, i: nat, p: Problem)
    requires i < n && p in chunk(i)
    ensures p in Chunks(chunk, n)
  {
    if i < n - 1 {
      ChunkIncluded(chunk, n - 1, i, p);
    }
  }

  lemma {:induction false} ChunkExcluded(chunk: nat -> seq<Problem>, n: nat, p: Problem)
    requires forall i :: 0 <= i < n ==> p !in chunk(i)
    ensures p !in Chunks(chunk, n)
  {
    if n > 0 {
      ChunkExcluded(chunk, n - 1, p);
    }
  }

  lemma {:induction false} ChunksEmptyIff(chunk: nat -> seq<Problem>, n: nat)
    ensures Chunks(chunk, n) == [] <==> forall i :: 0 <= i < n ==> chunk(i) == []
  {
    if n > 0 {
      ChunksEmptyIff(chunk, n - 1);
    }
  }

  /** The checks of the first `n` instances. */
  function InstanceProblems(ins: seq<QinglongInstance>, n: nat, urlOk: string -> bool): seq<Problem>
    requires n <= |ins|
  {
    Chunks(CheckOf(ins, urlOk), n)
  }

  /** The last two checks, given whether Unraid is configured. */
  function FinalFindings(cfg: Config, hasUnraid: bool): seq<Problem> {
    Check(|cfg.allowedUserIds| == 0, NoAllowedUsers)
    + Check(!hasUnraid && |cfg.instances| == 0, NoBackend)
  }

  /** Every problem validate records, in order. */
  function Problems(cfg: Config, urlOk: string -> bool): seq<Problem> {
    FieldProblems(cfg) + InstanceProblems(cfg.instances, |cfg.instances|, urlOk) + FinalFindings(cfg, HasUnraid(cfg))
  }

  function FieldName(f: Field): string {
    match f
    case ListenAddr => "server.listen_addr"
    case CorpId => "wecom.corpid"
    case AgentId => "wecom.agentid"
    case Secret => "wecom.secret"
    case Token => "wecom.token"
    case EncodingAesKey => "wecom.encoding_aes_key"
    case ApiBaseUrl => "wecom.api_base_url"
    case UnraidEndpoint => "unraid.endpoint"
    case UnraidApiKey => "unraid.api_key"
  }

  function InstanceFieldName(f: InstanceField): string {
    match f
    case IdField => "id"
    case NameField => "name"
    case BaseUrlField => "base_url"
    case ClientIdField => "client_id"
    case ClientSecretField => "client_secret"
  }

  function InstancePrefix(i: nat): string {
    "qinglong.instances[" + NatToDecimal(i) + "]."
  }

  /** The text each problem is reported with. */
  function Message(p: Problem): string {
    match p
    case Missing(f) => FieldName(f) + " 不能为空"
    case InstanceBlank(i, f) => InstancePrefix(i) + InstanceFieldName(f) + " 不能为空"
    case InstanceIdMalformed(i) => InstancePrefix(i) + "id 不合法（仅允许字母数字及 _ -，长度≤32，且首字符为字母数字）"
    case InstanceIdRepeated(i) => InstancePrefix(i) + "id 重复"
    case InstanceBaseUrlMalformed(i) => InstancePrefix(i) + "base_url 不合法"
    case NoAllowedUsers => "auth.allowed_userids 不能为空（MVP 仅支持白名单）"
    case NoBackend => "至少配置一个后端服务：unraid 或 qinglong.instances"
  }

  function Messages(ps: seq<Problem>): (r: seq<string>)
    ensures |r| == |ps|
  {
    if ps == [] then [] else [Message(ps[0])] + Messages(ps[1..])
  }

  const ErrorPrefix: string := "配置校验失败: "

  /** The error validate returns for a list of problems: none, or all of them joined. */
  function ErrorFor(ps: seq<Problem>): (r: Option<string>)
    ensures r.None? <==> ps == []
    ensures r.Some? ==> HasPrefix(r.value, ErrorPrefix)
  {
    if ps == [] then None else Some(ErrorPrefix + Join(Messages(ps), "; "))
  }

  /** The IDs an instance scan has recorded after `n` instances. */
  function SeenIds(ins: seq<QinglongInstance>, n: nat): set<string>
    requires n <= |ins|
  {
    set j | 0 <= j < n && !IsBlank(ins[j].id) :: ins[j].id
  }

  /** Instance scans record IDs one instance at a time. */
  lemma SeenIdsStep(ins: seq<QinglongInstance>, i: nat)
    requires i < |ins|
    ensures SeenIds(ins, i + 1) == SeenIds(ins, i) + (if IsBlank(ins[i].id) then {} else {ins[i].id})
  {
  }

  /** An ID is in the seen set exactly when an earlier instance with a non-blank ID carries it. */
  lemma SeenIsTaken(ins: seq<QinglongInstance>, i: nat)
    requires i < |ins|
    ensures ins[i].id in SeenIds(ins, i) <==> IdTaken(ins, i)
  {
    if ins[i].id in SeenIds(ins, i) {
      var j :| 0 <= j < i && !IsBlank(ins[j].id) && ins[j].id == ins[i].id;
    }
  }

  /** Appending is associative. */
  lemma AppendAssoc(a: seq<Problem>, b: seq<Problem>, c: seq<Problem>)
    ensures a + (b + c) == (a + b) + c
  {
  }

  /** The checks validate makes on instance `i`, given the non-blank IDs of the instances before it. */
  method CheckInstance(ins: seq<QinglongInstance>, i: nat, seen: set<string>, urlOk: string -> bool)
    returns (found: seq<Problem>, seen': set<string>)
    requires i < |ins| && seen == SeenIds(ins, i)
    ensures found == InstanceCheck(ins, i, urlOk)
    ensures seen' == SeenIds(ins, i + 1)
  {
    var x := ins[i];
    seen' := seen;
    var idBlank := IsBlank(x.id);
    if idBlank {
      found := [InstanceBlank(i, IdField)];
    } else {
      found := Check(!IdPattern(x.id), InstanceIdMalformed(i));
      found := found + Check(x.id in seen, InstanceIdRepeated(i));
      seen' := seen + {x.id};
    }
    var nameBlank := IsBlank(x.name);
    found := found + Check(nameBlank, InstanceBlank(i, NameField));
    var urlBlank := IsBlank(x.baseUrl);
    if urlBlank {
      found := found + [InstanceBlank(i, BaseUrlField)];
    } else {
      found := found + Check(!urlOk(x.baseUrl), InstanceBaseUrlMalformed(i));
    }
    var clientIdBlank := IsBlank(x.clientId);
    var clientSecretBlank := IsBlank(x.clientSecret);
    found := found + Check(clientIdBlank, InstanceBlank(i, ClientIdField));
    found := found + Check(clientSecretBlank, InstanceBlank(i, ClientSecretField));
    ghost var flags := InstanceFlags(idBlank, !IdPattern(x.id), x.id in seen, nameBlank, urlBlank, !urlOk(x.baseUrl),
                             clientIdBlank, clientSecretBlank);
    assert found == Findings(i, flags);
    assert flags == FlagsOf(ins, i, urlOk) by {
      SeenIsTaken(ins, i);
    }
    SeenIdsStep(ins, i);
  }

  /** validate's loop over the instances: `problems` followed by the problems of every instance. */
  method CheckInstances(problems: seq<Problem>, ins: seq<QinglongInstance>, urlOk: string -> bool)
    returns (r: seq<Problem>)
    ensures r == problems + InstanceProblems(ins, |ins|, urlOk)
  {
    r := problems;
    var seen: set<string> := {};
    for i := 0 to |ins|
      invariant r == problems + InstanceProblems(ins, i, urlOk)
      invariant seen == SeenIds(ins, i)
    {
      var found;
      found, seen := CheckInstance(ins, i, seen, urlOk);
      assert problems + InstanceProblems(ins, i + 1, urlOk) == r + found by {
        AppendAssoc(problems, InstanceProblems(ins, i, urlOk), found);
      }
      r := r + found;
    }
  }

  /** validate: the field checks, the instance checks, then the whitelist and the backend checks. */
  method Validate(cfg: Config, urlOk: string -> bool) returns (err: Option<string>)
    ensures err == ErrorFor(Problems(cfg, urlOk))
  {
    var hasUnraid := !IsBlank(cfg.unraid.endpoint) || !IsBlank(cfg.unraid.apiKey);
    var problems := FieldFindings(cfg, hasUnraid);
    problems := CheckInstances(problems, cfg.instances, urlOk);
    ghost var body := problems;
    problems := problems + Check(|cfg.allowedUserIds| == 0, NoAllowedUsers);
    problems := problems + Check(!hasUnraid && |cfg.instances| == 0, NoBackend);
    assert problems == Problems(cfg, urlOk) by {
      AppendAssoc(body, Check(|cfg.allowedUserIds| == 0, NoAllowedUsers), Check(!hasUnraid && |cfg.instances| == 0, NoBackend));
    }
    if |problems| > 0 {
      err := Some(ErrorPrefix + Join(Messages(problems), "; "));
    } else {
      err := None;
    }
  }

  // ---------------------------------------------------------------------
  // What validation accepts
  // ---------------------------------------------------------------------

  /** One instance passes every check of its own. */
  predicate InstanceValid(x: QinglongInstance, urlOk: string -> bool) {
    && !IsBlank(x.id) && IdPattern(x.id)
    && !IsBlank(x.name)
    && !IsBlank(x.baseUrl) && urlOk(x.baseUrl)
    && !IsBlank(x.clientId) && !IsBlank(x.clientSecret)
  }

  /** Every instance passes its checks and no two instances share an ID. */
  predicate InstancesValid(ins: seq<QinglongInstance>, n: nat, urlOk: string -> bool)
    requires n <= |ins|
  {
    && (forall i :: 0 <= i < n ==> InstanceValid(ins[i], urlOk))
    && (forall i, j :: 0 <= j < i < n ==> ins[j].id != ins[i].id)
  }

  /** The configuration the service accepts, stated rule by rule. */
  predicate Valid(cfg: Config, urlOk: string -> bool) {
    && (forall f: Field :: !FieldMissing(cfg, f))
    && InstancesValid(cfg.instances, |cfg.instances|, urlOk)
    && |cfg.allowedUserIds| > 0
    && (HasUnraid(cfg) || |cfg.instances| > 0)
  }

  /** A field is reported missing exactly when its check fails. */
  lemma FieldFindingsHas(cfg: Config, hasUnraid: bool, f: Field)
    ensures Missing(f) in FieldFindings(cfg, hasUnraid) <==> MissingGiven(cfg, hasUnraid, f)
  {
    var chunk := FieldCheckOf(FlagsFor(cfg, hasUnraid));
    ReportedInFieldOrder(FlagsFor(cfg, hasUnraid));
    if MissingGiven(cfg, hasUnraid, f) {
      ChunkIncluded(chunk, 9, FieldIndex(f), Missing(f));
    } else {
      ChunkExcluded(chunk, 9, Missing(f));
    }
  }

  /** No field is reported exactly when no field is missing. */
  lemma FieldFindingsEmptyIff(cfg: Config, hasUnraid: bool)
    ensures FieldFindings(cfg, hasUnraid) == [] <==> forall f: Field :: !MissingGiven(cfg, hasUnraid, f)
  {
    var chunk := FieldCheckOf(FlagsFor(cfg, hasUnraid));
    ReportedInFieldOrder(FlagsFor(cfg, hasUnraid));
    ChunksEmptyIff(chunk, 9);
    if forall f: Field :: !MissingGiven(cfg, hasUnraid, f) {
      forall k | 0 <= k < 9
        ensures chunk(k) == []
      {
        assert !MissingGiven(cfg, hasUnraid, FieldAt(k));
      }
    }
    if FieldFindings(cfg, hasUnraid) == [] {
      forall f: Field
        ensures !MissingGiven(cfg, hasUnraid, f)
      {
        assert chunk(FieldIndex(f)) == [];
      }
    }
  }

  lemma FieldProblemsEmptyIff(cfg: Config)
    ensures FieldProblems(cfg) == [] <==> forall f: Field :: !FieldMissing(cfg, f)
  {
    FieldFindingsEmptyIff(cfg, HasUnraid(cfg));
    assert forall f: Field :: FieldMissing(cfg, f) == MissingGiven(cfg, HasUnraid(cfg), f);
  }

  lemma InstanceCheckEmptyIff(ins: seq<QinglongInstance>, i: nat, urlOk: string -> bool)
    requires i < |ins|
    ensures CheckOf(ins, urlOk)(i) == [] <==> InstanceValid(ins[i], urlOk) && !IdTaken(ins, i)
  {
    FindingsEmptyIff(i, FlagsOf(ins, i, urlOk));
  }

  lemma ChecksPassIff(ins: seq<QinglongInstance>, n: nat, urlOk: string -> bool)
    requires n <= |ins|
    ensures (forall i :: 0 <= i < n ==> CheckOf(ins, urlOk)(i) == [])
        <==> (forall i :: 0 <= i < n ==> InstanceValid(ins[i], urlOk) && !IdTaken(ins, i))
  {
    forall i | 0 <= i < n
      ensures CheckOf(ins, urlOk)(i) == [] <==> InstanceValid(ins[i], urlOk) && !IdTaken(ins, i)
    {
      InstanceCheckEmptyIff(ins, i, urlOk);
    }
  }

  /** Among instances with non-blank IDs, none repeats an earlier ID exactly when all IDs differ. */
  lemma UntakenIffDistinct(ins: seq<QinglongInstance>, n: nat, urlOk: string -> bool)
    requires n <= |ins|
    requires forall i :: 0 <= i < n ==> InstanceValid(ins[i], urlOk)
    ensures (forall i :: 0 <= i < n ==> !IdTaken(ins, i)) <==> (forall i, j :: 0 <= j < i < n ==> ins[j].id != ins[i].id)
  {
    if forall i :: 0 <= i < n ==> !IdTaken(ins, i) {
      forall i, j | 0 <= j < i < n
        ensures ins[j].id != ins[i].id
      {
        assert InstanceValid(ins[j], urlOk) && !IdTaken(ins, i);
      }
    }
  }

  lemma InstanceProblemsEmptyIff(ins: seq<QinglongInstance>, n: nat, urlOk: string -> bool)
    requires n <= |ins|
    ensures InstanceProblems(ins, n, urlOk) == [] <==> InstancesValid(ins, n, urlOk)
  {
    ChunksEmptyIff(CheckOf(ins, urlOk), n);
    ChecksPassIff(ins, n, urlOk);
    if forall i :: 0 <= i < n ==> InstanceValid(ins[i], urlOk) {
      UntakenIffDistinct(ins, n, urlOk);
    }
  }

  /** validate accepts exactly the valid configurations. */
  lemma ValidateAcceptsIff(cfg: Config, urlOk: string -> bool)
    ensures ErrorFor(Problems(cfg, urlOk)).None? <==> Valid(cfg, urlOk)
  {
    FieldProblemsEmptyIff(cfg);
    InstanceProblemsEmptyIff(cfg.instances, |cfg.instances|, urlOk);
  }

  /** A required top-level field is reported exactly when it is missing. */
  lemma MissingFieldReported(cfg: Config, urlOk: string -> bool, f: Field)
    ensures Missing(f) in Problems(cfg, urlOk) <==> FieldMissing(cfg, f)
  {
    var ins := cfg.instances;
    forall i | 0 <= i < |ins|
      ensures Missing(f) !in CheckOf(ins, urlOk)(i)
    {
      if Missing(f) in CheckOf(ins, urlOk)(i) {
        FindingsAreAboutInstance(i, FlagsOf(ins, i, urlOk), Missing(f));
      }
    }
    ChunkExcluded(CheckOf(ins, urlOk), |ins|, Missing(f));
    FieldFindingsHas(cfg, HasUnraid(cfg), f);
  }

  /** An instance repeating an earlier non-blank ID is reported as a duplicate. */
  lemma RepeatedIdReported(cfg: Config, urlOk: string -> bool, i: nat, j: nat)
    requires j < i < |cfg.instances|
    requires !IsBlank(cfg.instances[j].id) && cfg.instances[j].id == cfg.instances[i].id
    ensures InstanceIdRepeated(i) in Problems(cfg, urlOk)
  {
    var ins := cfg.instances;
    assert IdTaken(ins, i);
    assert InstanceIdRepeated(i) in CheckOf(ins, urlOk)(i);
    ChunkIncluded(CheckOf(ins, urlOk), |ins|, i, InstanceIdRepeated(i));
  }

  // ---------------------------------------------------------------------
  // Load
  // ---------------------------------------------------------------------

  /** Load after decoding: defaults first, then validation. */
  function Load(decoded: Result<Config, string>, urlOk: string -> bool): (r: Result<Config, string>)
    ensures decoded.Err? ==> r == Err(decoded.error)
    ensures r.Ok? ==> decoded.Ok? && r.value == WithDefaults(decoded.value)
  {
    match decoded
    case Err(e) => Err(e)
    case Ok(cfg) =>
      var c := WithDefaults(cfg);
      match ErrorFor(Problems(c, urlOk))
      case Some(e) => Err(e)
      case None => Ok(c)
  }

  /** A configuration that loads is valid. */
  lemma LoadedIsValid(decoded: Result<Config, string>, urlOk: string -> bool)
    ensures Load(decoded, urlOk).Ok? ==> Valid(Load(decoded, urlOk).value, urlOk)
  {
    if decoded.Ok? {
      ValidateAcceptsIff(WithDefaults(decoded.value), urlOk);
    }
  }

  /** After defaults, the listen address and the API base URL are never reported missing. */
  lemma DefaultedFieldsNeverMissing(cfg: Config, urlOk: string -> bool)
    ensures Missing(ListenAddr) !in Problems(WithDefaults(cfg), urlOk)
    ensures Missing(ApiBaseUrl) !in Problems(WithDefaults(cfg), urlOk)
  {
    var c := WithDefaults(cfg);
    assert !FieldMissing(c, ListenAddr) by {
      assert c.server.listenAddr != "";
    }
    assert !FieldMissing(c, ApiBaseUrl) by {
      assert c.wecom.apiBaseUrl != "";
    }
    MissingFieldReported(c, urlOk, ListenAddr);
    MissingFieldReported(c, urlOk, ApiBaseUrl);
  }
}
