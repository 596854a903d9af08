/** The URL classifier of WebTopo (classify_url): a deterministic function
    from a URL and its path component to a record (type, risk level, tags).

    The source runs seven checks in a fixed order; every check that fires
    overwrites the type and the risk level and appends its tag.  The model
    keeps that shape: `Fired` says which of the seven checks fire and
    `Overlay` applies the fired ones, in order, to the default record. */
module Classifier {
  import opened Text

  /** The `type` field: 'normal', 'admin', 'authentication', 'api',
      'configuration', 'backup', 'database', 'resource'. */
  datatype UrlType = Normal | Admin | Authentication | Api | Configuration | Backup | Database | Resource

  /** The `risk_level` field: 'low' < 'medium' < 'high' < 'critical'. */
  datatype Risk = Low | Medium | High | Critical

  /** The tags: 'admin-panel', 'auth', 'api', 'config', 'backup',
      'database', 'upload'. */
  datatype Tag = AdminPanelTag | AuthTag | ApiTag | ConfigTag | BackupTag | DatabaseTag | UploadTag

  datatype Classification = Classification(kind: UrlType, risk: Risk, tags: seq<Tag>)

  /** The record a URL gets when no check fires. */
  const Unclassified := Classification(Normal, Low, [])

  /** What a check writes when it fires. */
  datatype Check = Check(kind: UrlType, risk: Risk, tag: Tag)

  /** The seven checks in the order the source runs them: pattern bank,
      login indicators, API markers, configuration, backup and database
      suffixes, upload markers in the path. */
  const Checks: seq<Check> := [
    Check(Admin, High, AdminPanelTag),
    Check(Authentication, Medium, AuthTag),
    Check(Api, Medium, ApiTag),
    Check(Configuration, High, ConfigTag),
    Check(Backup, High, BackupTag),
    Check(Database, Critical, DatabaseTag),
    Check(Resource, Medium, UploadTag)
  ]

  /** An entry of the admin-pattern bank.  Every entry of the source's bank
      is a literal (`\.` is an escaped dot); the entries ending in `$` are
      anchored at the end of the URL. */
  datatype Pattern = Pattern(literal: string, anchored: bool)

  const AdminPatterns: seq<Pattern> := [
    Pattern("/admin", false), Pattern("/administrator", false), Pattern("/backend", false),
    Pattern("/manager", false), Pattern("/cp", false), Pattern("/controlpanel", false),
    Pattern("/dashboard", false), Pattern("/console", false), Pattern("/webadmin", false),
    Pattern("/system", false), Pattern("/admincp", false), Pattern("/moderator", false),
    Pattern("/wp-admin", false), Pattern("/wp-login", false), Pattern("/phpmyadmin", false),
    Pattern("/mysql", false), Pattern("/pma", false), Pattern("/myadmin", false),
    Pattern("/cpanel", false), Pattern("/whm", false), Pattern("/plesk", false),
    Pattern("/webmail", false), Pattern("/rc", false), Pattern("/roundcube", false),
    Pattern("/user/login", false), Pattern("/admin/login", false), Pattern("/administrator/login", false),
    Pattern("/signin", false),
    Pattern("/login", false), Pattern("/signin", false), Pattern("/auth", false), Pattern("/authenticate", false),
    Pattern("/api/", false), Pattern("/graphql", false), Pattern("/rest/", false),
    Pattern("/v1/", false), Pattern("/v2/", false), Pattern("/oauth/", false),
    Pattern(".env", false), Pattern("/config.", false), Pattern("/settings.", false), Pattern("/configuration", false),
    Pattern(".bak", true), Pattern(".backup", true), Pattern(".old", true), Pattern(".save", true),
    Pattern(".log", true), Pattern("/logs/", false), Pattern("/debug/", false),
    Pattern(".sql", true), Pattern(".db", true), Pattern(".mdb", true)
  ]

  const LoginIndicators: seq<string> := ["login", "signin", "auth", "authenticate", "log-in"]
  const ApiMarkers: seq<string> := ["/api/", "/graphql", "/rest/"]
  const ConfigExtensions: seq<string> := [".env", ".config", ".ini", ".conf", ".yml", ".yaml", ".xml"]
  const BackupExtensions: seq<string> := [".bak", ".backup", ".old", ".save", ".tmp"]
  const DatabaseExtensions: seq<string> := [".sql", ".db", ".mdb", ".sqlite", ".dbf"]
  const UploadIndicators: seq<string> := ["/upload", "/uploads", "/files", "/assets", "/images"]

  /** re.search with IGNORECASE of one bank entry in the full URL.  An
      anchored entry matches at the very end, or just before a final
      newline, which is where Python's `$` matches. */
  predicate PatternMatches(p: Pattern, url: string) {
    var s := Lower(url);
    if p.anchored then EndsWith(s, p.literal) || EndsWith(s, p.literal + "\n")
    else Contains(s, p.literal)
  }

  /** The scan over the bank.  The source leaves the loop at the first
      entry that matches; what it records is only that one does. */
  predicate AnyMatches(patterns: seq<Pattern>, url: string) {
    exists p :: p in patterns && PatternMatches(p, url)
  }

  predicate BankHit(url: string) {
    AnyMatches(AdminPatterns, url)
  }

  /** any(w in s for w in words) */
  predicate ContainsAny(s: string, words: seq<string>) {
    exists w :: w in words && Contains(s, w)
  }

  /** any(s.endswith(x) for x in suffixes) */
  predicate EndsWithAny(s: string, suffixes: seq<string>) {
    exists x :: x in suffixes && EndsWith(s, x)
  }

  /** The login check: any login indicator in the lower-cased URL. */
  predicate LoginHit(url: string) {
    ContainsAny(Lower(url), LoginIndicators)
  }

  /** The API check: an API marker in the lower-cased URL. */
  predicate ApiHit(url: string) {
    ContainsAny(Lower(url), ApiMarkers)
  }

  /** The configuration, backup and database checks: the lower-cased full
      URL (query string included) ends with one of the extensions. */
  predicate ConfigHit(url: string) {
    EndsWithAny(Lower(url), ConfigExtensions)
  }

  predicate BackupHit(url: string) {
    EndsWithAny(Lower(url), BackupExtensions)
  }

  predicate DatabaseHit(url: string) {
    EndsWithAny(Lower(url), DatabaseExtensions)
  }

  /** The upload check: an upload marker in the path as it is, without
      lower-casing. */
  predicate UploadHit(path: string) {
    ContainsAny(path, UploadIndicators)
  }

  /** Which of the seven checks fire, in check order. */
  function Fired(url: string, path: string): (f: seq<bool>)
    ensures |f| == |Checks|
  {
    [BankHit(url), LoginHit(url), ApiHit(url), ConfigHit(url), BackupHit(url), DatabaseHit(url), UploadHit(path)]
  }

  predicate NoneFired(fired: seq<bool>) {
    forall i :: 0 <= i < |fired| ==> !fired[i]
  }

  /** Check i fires and no later check does. */
  predicate LastFiredAt(fired: seq<bool>, i: int) {
    0 <= i < |fired| && fired[i] && forall j :: i < j < |fired| ==> !fired[j]
  }

  /** The tags of the fired checks, in check order. */
  function FiredTags(checks: seq<Check>, fired: seq<bool>): (r: seq<Tag>)
    requires |checks| == |fired|
    ensures |r| <= |checks|
    ensures forall t :: t in r <==> exists i :: 0 <= i < |checks| && fired[i] && checks[i].tag == t
    decreases |fired|
  {
    if fired == [] then []
    else (if fired[0] then [checks[0].tag] else []) + FiredTags(checks[1..], fired[1..])
  }

  /** One fired check: overwrite type and risk, append the tag. */
  function Apply(c: Classification, k: Check): Classification {
    Classification(k.kind, k.risk, c.tags + [k.tag])
  }

  /** Runs the checks in order over c: each fired check overwrites type and
      risk and appends its tag. */
  function Overlay(c: Classification, checks: seq<Check>, fired: seq<bool>): (r: Classification)
    requires |checks| == |fired|
    ensures r.tags == c.tags + FiredTags(checks, fired)
    decreases |fired|
  {
    if fired == [] then c
    else Overlay(if fired[0] then Apply(c, checks[0]) else c, checks[1..], fired[1..])
  }

  /** When nothing fires, type and risk stay as they were. */
  lemma {:induction false} OverlayNoneFired(c: Classification, checks: seq<Check>, fired: seq<bool>)
    requires |checks| == |fired| && NoneFired(fired)
    ensures Overlay(c, checks, fired).kind == c.kind && Overlay(c, checks, fired).risk == c.risk
    decreases |fired|
  {
    if fired != [] {
      assert !fired[0];
      OverlayNoneFired(c, checks[1..], fired[1..]);
    }
  }

  /** Last match wins: type and risk are those of the last check that
      fired. */
  lemma {:induction false} OverlayLastWins(c: Classification, checks: seq<Check>, fired: seq<bool>, i: nat)
    requires |checks| == |fired| && LastFiredAt(fired, i)
    ensures Overlay(c, checks, fired).kind == checks[i].kind
    ensures Overlay(c, checks, fired).risk == checks[i].risk
    decreases |fired|
  {
    var c' := if fired[0] then Apply(c, checks[0]) else c;
    if i == 0 {
      OverlayNoneFired(c', checks[1..], fired[1..]);
    } else {
      assert LastFiredAt(fired[1..], i - 1);
      OverlayLastWins(c', checks[1..], fired[1..], i - 1);
    }
  }

  /** The risk level each type comes with. */
  function RiskOf(kind: UrlType): Risk {
    match kind
    case Normal => Low
    case Admin => High
    case Authentication => Medium
    case Api => Medium
    case Configuration => High
    case Backup => High
    case Database => Critical
    case Resource => Medium
  }

  /** The position of each tag in the order the checks append them. */
  function TagRank(t: Tag): nat {
    match t
    case AdminPanelTag => 0
    case AuthTag => 1
    case ApiTag => 2
    case ConfigTag => 3
    case BackupTag => 4
    case DatabaseTag => 5
    case UploadTag => 6
  }

  /** classify_url(url), where `path` is urlparse(url).path. */
  function Classify(url: string, path: string): (r: Classification)
    ensures r.tags == FiredTags(Checks, Fired(url, path))
  {
    Overlay(Unclassified, Checks, Fired(url, path))
  }

  /** The index of the last true entry of a sequence that has one. */
  function LastIndex(fired: seq<bool>): (i: nat)
    requires !NoneFired(fired)
    ensures LastFiredAt(fired, i)
  {
    if fired[|fired| - 1] then |fired| - 1
    else LastIndex(fired[..|fired| - 1])
  }

  // ---------------------------------------------------------------------
  // Properties of the classifier
  // ---------------------------------------------------------------------

  /** Every check writes a type other than 'normal', together with the
      risk level that type comes with. */
  predicate WellFormedChecks(checks: seq<Check>) {
    forall i :: 0 <= i < |checks| ==> checks[i].kind != Normal && checks[i].risk == RiskOf(checks[i].kind)
  }

  /** Tags of later checks rank higher. */
  predicate RankedChecks(checks: seq<Check>) {
    forall i, j :: 0 <= i < j < |checks| ==> TagRank(checks[i].tag) < TagRank(checks[j].tag)
  }

  /** No two checks write the same type. */
  predicate DistinctKinds(checks: seq<Check>) {
    forall i, j :: 0 <= i < j < |checks| ==> checks[i].kind != checks[j].kind
  }

  /** Tags strictly increasing in check order (hence without duplicates). */
  predicate Increasing(tags: seq<Tag>) {
    forall i, j :: 0 <= i < j < |tags| ==> TagRank(tags[i]) < TagRank(tags[j])
  }

  /** Tags are strictly increasing in check order, hence free of
      duplicates, whatever fires. */
  lemma {:induction false} FiredTagsIncreasing(checks: seq<Check>, fired: seq<bool>)
    requires |checks| == |fired| && RankedChecks(checks)
    ensures Increasing(FiredTags(checks, fired))
    decreases |fired|
  {
    if fired != [] {
      RankedTail(checks);
      FiredTagsIncreasing(checks[1..], fired[1..]);
      var rest := FiredTags(checks[1..], fired[1..]);
      if fired[0] {
        forall t | t in rest ensures TagRank(checks[0].tag) < TagRank(t) {
          var i :| 0 <= i < |checks[1..]| && fired[1..][i] && checks[1..][i].tag == t;
        }
        PrependIncreasing(checks[0].tag, rest);
      }
    }
  }

  /** The checks after the first are ranked, and all above the first. */
  lemma RankedTail(checks: seq<Check>)
    requires checks != [] && RankedChecks(checks)
    ensures RankedChecks(checks[1..])
    ensures forall i :: 0 <= i < |checks[1..]| ==> TagRank(checks[0].tag) < TagRank(checks[1..][i].tag)
  {
    forall i, j | 0 <= i < j < |checks[1..]|
      ensures TagRank(checks[1..][i].tag) < TagRank(checks[1..][j].tag)
    {
      assert checks[1..][i] == checks[i + 1] && checks[1..][j] == checks[j + 1];
    }
    forall i | 0 <= i < |checks[1..]| ensures TagRank(checks[0].tag) < TagRank(checks[1..][i].tag) {
      assert checks[1..][i] == checks[i + 1];
    }
  }

  lemma PrependIncreasing(t: Tag, rest: seq<Tag>)
    requires Increasing(rest) && forall u :: u in rest ==> TagRank(t) < TagRank(u)
    ensures Increasing([t] + rest)
  {
    var r := [t] + rest;
    forall i, j | 0 <= i < j < |r| ensures TagRank(r[i]) < TagRank(r[j]) {
      assert r[j] == rest[j - 1] && rest[j - 1] in rest;
      if i > 0 {
        assert r[i] == rest[i - 1];
      }
    }
  }

  lemma WellFormedChecksHolds()
    ensures WellFormedChecks(Checks)
  {
  }

  lemma RankedChecksHolds()
    ensures RankedChecks(Checks)
  {
  }

  lemma DistinctKindsHolds()
    ensures DistinctKinds(Checks)
  {
  }

  lemma {:induction false} FiredTagsNone(checks: seq<Check>, fired: seq<bool>)
    requires |checks| == |fired| && NoneFired(fired)
    ensures FiredTags(checks, fired) == []
    decreases |fired|
  {
    if fired != [] {
      assert !fired[0];
      FiredTagsNone(checks[1..], fired[1..]);
    }
  }

  /** With ranked checks, the tag of check k is present exactly when check k
      fired. */
  lemma FiredTagIff(checks: seq<Check>, fired: seq<bool>, k: nat)
    requires |checks| == |fired| && RankedChecks(checks) && k < |checks|
    ensures checks[k].tag in FiredTags(checks, fired) <==> fired[k]
  {
    if checks[k].tag in FiredTags(checks, fired) {
      var i :| 0 <= i < |checks| && fired[i] && checks[i].tag == checks[k].tag;
      assert i == k;
    }
  }

  /** The outcome of running well-formed checks over the default record,
      for any pattern of fired checks. */
  lemma OverlayOutcome(checks: seq<Check>, fired: seq<bool>)
    requires |checks| == |fired| && WellFormedChecks(checks)
    ensures var r := Overlay(Unclassified, checks, fired);
      && (r == Unclassified <==> NoneFired(fired))
      && (r.kind == Normal <==> r.tags == [])
      && r.risk == RiskOf(r.kind)
  {
    var r := Overlay(Unclassified, checks, fired);
    if NoneFired(fired) {
      OverlayNoneFired(Unclassified, checks, fired);
      FiredTagsNone(checks, fired);
    } else {
      var i := LastIndex(fired);
      OverlayLastWins(Unclassified, checks, fired, i);
      assert checks[i].tag in FiredTags(checks, fired);
      assert r.tags != [];
    }
  }

  /** What the seven checks guarantee about type, risk and the empty
      record, for any pattern of fired checks. */
  lemma ChecksOutcome(fired: seq<bool>)
    requires |fired| == |Checks|
    ensures var r := Overlay(Unclassified, Checks, fired);
      && (r == Unclassified <==> NoneFired(fired))
      && (r.kind == Normal <==> r.tags == [])
      && r.risk == RiskOf(r.kind)
  {
    WellFormedChecksHolds();
    OverlayOutcome(Checks, fired);
  }

  /** What the seven checks guarantee about the tags, for any pattern of
      fired checks. */
  lemma ChecksTags(fired: seq<bool>)
    requires |fired| == |Checks|
    ensures var r := Overlay(Unclassified, Checks, fired);
      && Increasing(r.tags)
      && (forall k :: 0 <= k < |Checks| ==> (Checks[k].tag in r.tags <==> fired[k]))
  {
    RankedChecksHolds();
    FiredTagsIncreasing(Checks, fired);
    forall k | 0 <= k < |Checks|
      ensures Checks[k].tag in FiredTags(Checks, fired) <==> fired[k]
    {
      FiredTagIff(Checks, fired, k);
    }
  }

  /** Last match wins, in both directions, for any pattern of fired
      checks. */
  lemma ChecksKind(fired: seq<bool>, k: nat)
    requires |fired| == |Checks| && k < |Checks|
    ensures var r := Overlay(Unclassified, Checks, fired);
      && (LastFiredAt(fired, k) <==> r.kind == Checks[k].kind)
      && (LastFiredAt(fired, k) ==> r.risk == Checks[k].risk)
  {
    var r := Overlay(Unclassified, Checks, fired);
    if LastFiredAt(fired, k) {
      OverlayLastWins(Unclassified, Checks, fired, k);
    }
    if r.kind == Checks[k].kind {
      WellFormedChecksHolds();
      DistinctKindsHolds();
      OverlayOutcome(Checks, fired);
      assert Checks[k].kind != Normal;
      var j := LastIndex(fired);
      OverlayLastWins(Unclassified, Checks, fired, j);
      assert Checks[j].kind == Checks[k].kind;
    }
  }

  /** Default result: the record is normal/low with no tags exactly when no
      check fires. */
  lemma ClassifyDefault(url: string, path: string)
    ensures Classify(url, path) == Unclassified <==> NoneFired(Fired(url, path))
  {
    ChecksOutcome(Fired(url, path));
  }

  /** Type and risk always form one of the eight fixed pairs, and the type
      is 'normal' exactly when there are no tags. */
  lemma ClassifyPairing(url: string, path: string)
    ensures Classify(url, path).risk == RiskOf(Classify(url, path).kind)
    ensures Classify(url, path).kind == Normal <==> Classify(url, path).tags == []
  {
    ChecksOutcome(Fired(url, path));
  }

  /** Last match wins: the last check that fires decides type and risk, and
      a type other than 'normal' only ever comes from its own check when no
      later check fires. */
  lemma ClassifyLastWins(url: string, path: string, i: nat)
    requires i < |Checks|
    ensures LastFiredAt(Fired(url, path), i) <==> Classify(url, path).kind == Checks[i].kind
    ensures LastFiredAt(Fired(url, path), i) ==> Classify(url, path).risk == Checks[i].risk
  {
    ChecksKind(Fired(url, path), i);
  }

  /** Tags follow check order without duplicates, whatever fires. */
  lemma TagsOrderedAndDistinct(url: string, path: string)
    ensures Increasing(Classify(url, path).tags)
    ensures var tags := Classify(url, path).tags;
      forall i, j :: 0 <= i < j < |tags| ==> tags[i] != tags[j]
  {
    ChecksTags(Fired(url, path));
  }

  /** The tag of each check is present exactly when that check fires; in
      particular 'admin-panel' is a tag exactly when some bank entry
      matches. */
  lemma ClassifyTagIff(url: string, path: string, k: nat)
    requires k < |Checks|
    ensures Checks[k].tag in Classify(url, path).tags <==> Fired(url, path)[k]
    ensures AdminPanelTag in Classify(url, path).tags <==> BankHit(url)
  {
    var fired := Fired(url, path);
    ChecksTags(fired);
    assert Checks[0].tag == AdminPanelTag && fired[0] == BankHit(url);
  }

  /** The upload check runs last, so a path with an upload marker is
      resource/medium whatever else the URL matches. */
  lemma UploadWins(url: string, path: string)
    requires UploadHit(path)
    ensures Classify(url, path).kind == Resource && Classify(url, path).risk == Medium
    ensures UploadTag in Classify(url, path).tags
  {
    var fired := Fired(url, path);
    assert LastFiredAt(fired, 6);
    ChecksKind(fired, 6);
    ChecksTags(fired);
  }

  /** The three API markers sit in the bank as unanchored entries. */
  lemma ApiMarkersInBank()
    ensures forall k :: 0 <= k < |ApiMarkers| ==> AdminPatterns[32 + k] == Pattern(ApiMarkers[k], false)
  {
  }

  /** Every API marker is also a bank entry. */
  lemma ApiHitIsBankHit(url: string)
    requires ApiHit(url)
    ensures BankHit(url)
  {
    var w :| w in ApiMarkers && Contains(Lower(url), w);
    var k :| 0 <= k < |ApiMarkers| && ApiMarkers[k] == w;
    ApiMarkersInBank();
    var p := AdminPatterns[32 + k];
    assert p in AdminPatterns && PatternMatches(p, url);
  }

  lemma LaterKinds()
    ensures forall j :: 2 <= j < |Checks| ==> Checks[j].kind !in {Normal, Admin, Authentication}
  {
  }

  /** So an API URL carries both 'admin-panel' and 'api', and its type is
      'api' or that of a later check. */
  lemma ApiImpliesAdminPanel(url: string, path: string)
    requires ApiHit(url)
    ensures AdminPanelTag in Classify(url, path).tags && ApiTag in Classify(url, path).tags
    ensures Classify(url, path).kind !in {Normal, Admin, Authentication}
  {
    ApiHitIsBankHit(url);
    var fired := Fired(url, path);
    assert fired[0] && fired[2];
    ChecksTags(fired);
    assert Checks[0].tag == AdminPanelTag && Checks[2].tag == ApiTag;
    var j := LastIndex(fired);
    ChecksKind(fired, j);
    LaterKinds();
  }
}
