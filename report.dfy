/** The security report: the crawled URLs sorted into seven sections by
    their classification. */
module Report {
  import opened Wrappers
  import opened Classifier

  /** The sections of the report, in the order the source fills them. */
  datatype Section = AdminPanels | AuthPages | ApiEndpoints | ConfigFiles | BackupFiles | DatabaseFiles | SensitiveUrls

  datatype SecurityReport = SecurityReport(
    adminPanels: seq<string>,
    authPages: seq<string>,
    apiEndpoints: seq<string>,
    configFiles: seq<string>,
    backupFiles: seq<string>,
    databaseFiles: seq<string>,
    sensitiveUrls: seq<string>)

  const EmptyReport := SecurityReport([], [], [], [], [], [], [])

  /** One tree entry: a URL and the classification stored for it. */
  datatype Entry = Entry(url: string, classification: Classification)

  /** The if/elif chain: the first six sections go by type; a URL of any
      other type goes to the sensitive section when its risk is high or
      critical, and nowhere otherwise. */
  function SectionOf(c: Classification): (r: Option<Section>)
    ensures forall s :: SectionKind(s).Some? ==> (r == Some(s) <==> c.kind == SectionKind(s).value)
    ensures r == Some(SensitiveUrls) <==> (forall s :: SectionKind(s) != Some(c.kind)) && c.risk in {High, Critical}
  {
    if c.kind == Admin then Some(AdminPanels)
    else if c.kind == Authentication then Some(AuthPages)
    else if c.kind == Api then Some(ApiEndpoints)
    else if c.kind == Configuration then Some(ConfigFiles)
    else if c.kind == Backup then Some(BackupFiles)
    else if c.kind == Database then Some(DatabaseFiles)
    else if c.risk in {High, Critical} then Some(SensitiveUrls)
    else None
  }

  /** The type each of the first six sections collects; the sensitive
      section collects by risk. */
  function SectionKind(s: Section): Option<UrlType> {
    match s
    case AdminPanels => Some(Admin)
    case AuthPages => Some(Authentication)
    case ApiEndpoints => Some(Api)
    case ConfigFiles => Some(Configuration)
    case BackupFiles => Some(Backup)
    case DatabaseFiles => Some(Database)
    case SensitiveUrls => None
  }

  function Get(r: SecurityReport, s: Section): seq<string> {
    match s
    case AdminPanels => r.adminPanels
    case AuthPages => r.authPages
    case ApiEndpoints => r.apiEndpoints
    case ConfigFiles => r.configFiles
    case BackupFiles => r.backupFiles
    case DatabaseFiles => r.databaseFiles
    case SensitiveUrls => r.sensitiveUrls
  }

  /** report[section].append(url) */
  function Add(r: SecurityReport, s: Section, url: string): (r': SecurityReport)
    ensures forall s' :: Get(r', s') == if s' == s then Get(r, s') + [url] else Get(r, s')
  {
    match s
    case AdminPanels => r.(adminPanels := r.adminPanels + [url])
    case AuthPages => r.(authPages := r.authPages + [url])
    case ApiEndpoints => r.(apiEndpoints := r.apiEndpoints + [url])
    case ConfigFiles => r.(configFiles := r.configFiles + [url])
    case BackupFiles => r.(backupFiles := r.backupFiles + [url])
    case DatabaseFiles => r.(databaseFiles := r.databaseFiles + [url])
    case SensitiveUrls => r.(sensitiveUrls := r.sensitiveUrls + [url])
  }

  /** One step of the loop over the tree. */
  function File(r: SecurityReport, e: Entry): SecurityReport {
    match SectionOf(e.classification)
    case None => r
    case Some(s) => Add(r, s, e.url)
  }

  /** generate_security_report over the tree's entries in insertion
      order. */
  function Collect(entries: seq<Entry>): SecurityReport {
    if entries == [] then EmptyReport
    else File(Collect(entries[..|entries| - 1]), entries[|entries| - 1])
  }

  /** Collecting one more entry files it on top of the rest. */
  lemma CollectSnoc(entries: seq<Entry>, e: Entry)
    ensures Collect(entries + [e]) == File(Collect(entries), e)
  {
    assert (entries + [e])[..|entries|] == entries;
  }

  /** Reference definition of one section: the URLs of the entries that
      belong to it, in entry order. */
  function UrlsIn(entries: seq<Entry>, s: Section): seq<string> {
    if entries == [] then []
    else
      var e := entries[|entries| - 1];
      UrlsIn(entries[..|entries| - 1], s) + (if SectionOf(e.classification) == Some(s) then [e.url] else [])
  }

  /** The number of entries the report files somewhere. */
  function Filed(entries: seq<Entry>): nat {
    if entries == [] then 0
    else Filed(entries[..|entries| - 1]) + (if SectionOf(entries[|entries| - 1].classification).Some? then 1 else 0)
  }

  function TotalSize(r: SecurityReport): nat {
    |r.adminPanels| + |r.authPages| + |r.apiEndpoints| + |r.configFiles|
    + |r.backupFiles| + |r.databaseFiles| + |r.sensitiveUrls|
  }

  // ---------------------------------------------------------------------
  // Properties of the report
  // ---------------------------------------------------------------------

  /** Each section of the report lists exactly the URLs of the entries
      that belong to it, in entry order. */
  lemma {:induction false} CollectSections(entries: seq<Entry>, s: Section)
    ensures Get(Collect(entries), s) == UrlsIn(entries, s)
    decreases |entries|
  {
    if entries != [] {
      CollectSections(entries[..|entries| - 1], s);
    }
  }

  /** A URL is listed in a section exactly when some entry with that URL
      belongs to the section. */
  lemma {:induction false} UrlsInMember(entries: seq<Entry>, s: Section, url: string)
    ensures url in UrlsIn(entries, s)
        <==> exists i :: 0 <= i < |entries| && entries[i].url == url && SectionOf(entries[i].classification) == Some(s)
    decreases |entries|
  {
    if entries != [] {
      var init := entries[..|entries| - 1];
      UrlsInMember(init, s, url);
      if exists i :: 0 <= i < |init| && init[i].url == url && SectionOf(init[i].classification) == Some(s) {
        var i :| 0 <= i < |init| && init[i].url == url && SectionOf(init[i].classification) == Some(s);
        assert entries[i] == init[i];
      }
      if exists i :: 0 <= i < |entries| && entries[i].url == url && SectionOf(entries[i].classification) == Some(s) {
        var i :| 0 <= i < |entries| && entries[i].url == url && SectionOf(entries[i].classification) == Some(s);
        if i < |init| {
          assert init[i] == entries[i];
        }
      }
    }
  }

  /** The sections together hold one URL per filed entry: no entry is
      listed twice and none is lost. */
  lemma {:induction false} CollectSize(entries: seq<Entry>)
    ensures TotalSize(Collect(entries)) == Filed(entries)
    decreases |entries|
  {
    if entries != [] {
      CollectSize(entries[..|entries| - 1]);
    }
  }

  /** When the URLs are distinct (as the keys of the tree are), a URL is
      listed in at most one section. */
  lemma AtMostOneSection(entries: seq<Entry>, url: string, s1: Section, s2: Section)
    requires forall i, j :: 0 <= i < j < |entries| ==> entries[i].url != entries[j].url
    requires url in Get(Collect(entries), s1) && url in Get(Collect(entries), s2)
    ensures s1 == s2
  {
    CollectSections(entries, s1);
    CollectSections(entries, s2);
    UrlsInMember(entries, s1, url);
    UrlsInMember(entries, s2, url);
    var i :| 0 <= i < |entries| && entries[i].url == url && SectionOf(entries[i].classification) == Some(s1);
    var j :| 0 <= j < |entries| && entries[j].url == url && SectionOf(entries[j].classification) == Some(s2);
    assert i == j;
  }

  /** For a classification whose risk is the one its type comes with, the
      sensitive section is never chosen and exactly the normal and
      resource types are left out of the report. */
  lemma SectionOfPaired(c: Classification)
    requires c.risk == RiskOf(c.kind)
    ensures SectionOf(c) != Some(SensitiveUrls)
    ensures SectionOf(c).None? <==> c.kind in {Normal, Resource}
  {
  }

  /** So a report over classifications produced by classify_url has an
      empty sensitive section. */
  lemma {:induction false} NoSensitiveUrls(entries: seq<Entry>)
    requires forall i :: 0 <= i < |entries| ==> entries[i].classification.risk == RiskOf(entries[i].classification.kind)
    ensures Collect(entries).sensitiveUrls == []
    decreases |entries|
  {
    if entries != [] {
      var last := entries[|entries| - 1];
      SectionOfPaired(last.classification);
      NoSensitiveUrls(entries[..|entries| - 1]);
    }
  }
}
