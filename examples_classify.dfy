/** Worked examples of the classifier on concrete URLs, each with the
    path component urlparse gives it. */
module ClassifierExamples {
  import opened Text
  import opened Classifier

  /** Two adjacent characters of w never occur side by side in s, for one
      of the first two pairs of w. */
  predicate PairExcluded(s: string, w: string) {
    |w| >= 3 && (PairAbsent(s, w[0], w[1]) || PairAbsent(s, w[1], w[2]))
  }

  lemma PairExcludedNotContained(s: string, w: string)
    requires PairExcluded(s, w)
    ensures !Contains(s, w)
  {
    if PairAbsent(s, w[0], w[1]) {
      NotContainsByPair(s, w, 0);
    } else {
      NotContainsByPair(s, w, 1);
    }
  }

  lemma NoneContained(s: string, words: seq<string>)
    requires forall w :: w in words ==> PairExcluded(s, w)
    ensures !ContainsAny(s, words)
  {
    forall w | w in words ensures !Contains(s, w) {
      PairExcludedNotContained(s, w);
    }
  }

  /** The last two characters of s and of x differ somewhere. */
  predicate TailExcluded(s: string, x: string) {
    |x| >= 2 && |s| >= 2 && (s[|s| - 1] != x[|x| - 1] || s[|s| - 2] != x[|x| - 2])
  }

  lemma TailExcludedNotEndsWith(s: string, x: string)
    requires TailExcluded(s, x)
    ensures !EndsWith(s, x)
  {
    if |x| <= |s| {
      assert s[|s| - |x|..][|x| - 1] == s[|s| - 1] && s[|s| - |x|..][|x| - 2] == s[|s| - 2];
    }
  }

  lemma NoneEndsWith(s: string, suffixes: seq<string>)
    requires forall x :: x in suffixes ==> TailExcluded(s, x)
    ensures !EndsWithAny(s, suffixes)
  {
    forall x | x in suffixes ensures !EndsWith(s, x) {
      TailExcludedNotEndsWith(s, x);
    }
  }

  predicate NoUpper(s: string) {
    forall i :: 0 <= i < |s| ==> !('A' <= s[i] <= 'Z')
  }

  lemma LowerCaseUrl(s: string)
    requires NoUpper(s)
    ensures Lower(s) == s
  {
  }

  lemma BankHitBy(url: string, k: nat)
    requires k < |AdminPatterns| && PatternMatches(AdminPatterns[k], url)
    ensures BankHit(url)
  {
  }

  /** ".env" anywhere in the lower-cased URL is a bank hit. */
  lemma EnvBankHit(url: string)
    requires Contains(Lower(url), ".env")
    ensures BankHit(url)
  {
    assert AdminPatterns[38] == Pattern(".env", false);
    BankHitBy(url, 38);
  }

  /** A lower-cased URL ending in ".sql" is a bank hit. */
  lemma SqlBankHit(url: string)
    requires EndsWith(Lower(url), ".sql")
    ensures BankHit(url)
  {
    assert AdminPatterns[49] == Pattern(".sql", true);
    BankHitBy(url, 49);
  }

  lemma NoLoginHit(url: string)
    requires NoUpper(url) && forall w :: w in LoginIndicators ==> PairExcluded(url, w)
    ensures !LoginHit(url)
  {
    LowerCaseUrl(url);
    NoneContained(url, LoginIndicators);
  }

  lemma NoApiHit(url: string)
    requires NoUpper(url) && forall w :: w in ApiMarkers ==> PairExcluded(url, w)
    ensures !ApiHit(url)
  {
    LowerCaseUrl(url);
    NoneContained(url, ApiMarkers);
  }

  lemma NoConfigHit(url: string)
    requires NoUpper(url) && forall x :: x in ConfigExtensions ==> TailExcluded(url, x)
    ensures !ConfigHit(url)
  {
    LowerCaseUrl(url);
    NoneEndsWith(url, ConfigExtensions);
  }

  lemma NoBackupHit(url: string)
    requires NoUpper(url) && forall x :: x in BackupExtensions ==> TailExcluded(url, x)
    ensures !BackupHit(url)
  {
    LowerCaseUrl(url);
    NoneEndsWith(url, BackupExtensions);
  }

  lemma NoDatabaseHit(url: string)
    requires NoUpper(url) && forall x :: x in DatabaseExtensions ==> TailExcluded(url, x)
    ensures !DatabaseHit(url)
  {
    LowerCaseUrl(url);
    NoneEndsWith(url, DatabaseExtensions);
  }

  lemma NoUploadHit(path: string)
    requires forall w :: w in UploadIndicators ==> PairExcluded(path, w)
    ensures !UploadHit(path)
  {
    NoneContained(path, UploadIndicators);
  }

  /** Classify agrees with the outcome of its fired-check vector. */
  lemma OutcomeOf(url: string, path: string, fired: seq<bool>)
    requires Fired(url, path) == fired
    ensures Classify(url, path) == Overlay(Unclassified, Checks, fired)
  {
  }

  // https://x.test/backup.sql, path /backup.sql

  const BackupSqlUrl := "https://x.test/backup.sql"

  lemma BackupSqlNoUpper() ensures NoUpper(BackupSqlUrl) { }

  lemma BackupSqlBank() ensures BankHit(BackupSqlUrl) {
    BackupSqlNoUpper();
    LowerCaseUrl(BackupSqlUrl);
    assert EndsWith(BackupSqlUrl, ".sql");
    SqlBankHit(BackupSqlUrl);
  }

  lemma BackupSqlLogin() ensures !LoginHit(BackupSqlUrl) { BackupSqlNoUpper(); NoLoginHit(BackupSqlUrl); }
  lemma BackupSqlApi() ensures !ApiHit(BackupSqlUrl) { BackupSqlNoUpper(); NoApiHit(BackupSqlUrl); }
  lemma BackupSqlConfig() ensures !ConfigHit(BackupSqlUrl) { BackupSqlNoUpper(); NoConfigHit(BackupSqlUrl); }
  lemma BackupSqlBackup() ensures !BackupHit(BackupSqlUrl) { BackupSqlNoUpper(); NoBackupHit(BackupSqlUrl); }

  lemma BackupSqlDatabase() ensures DatabaseHit(BackupSqlUrl) {
    BackupSqlNoUpper();
    LowerCaseUrl(BackupSqlUrl);
    assert EndsWith(BackupSqlUrl, DatabaseExtensions[0]);
  }

  lemma BackupSqlUpload() ensures !UploadHit("/backup.sql") { NoUploadHit("/backup.sql"); }

  lemma OverlayDatabase()
    ensures Overlay(Unclassified, Checks, [true, false, false, false, false, true, false])
         == Classification(Database, Critical, [AdminPanelTag, DatabaseTag])
  {
  }

  /** A database dump outside any upload directory: the anchored '.sql'
      bank entry adds 'admin-panel' before the database check overwrites
      type and risk. */
  lemma BackupSqlIsDatabase()
    ensures Classify(BackupSqlUrl, "/backup.sql")
         == Classification(Database, Critical, [AdminPanelTag, DatabaseTag])
  {
    BackupSqlBank(); BackupSqlLogin(); BackupSqlApi();
    BackupSqlConfig(); BackupSqlBackup(); BackupSqlDatabase(); BackupSqlUpload();
    OutcomeOf(BackupSqlUrl, "/backup.sql", [true, false, false, false, false, true, false]);
    OverlayDatabase();
  }

  // https://site.env.test/, path /

  const EnvHostUrl := "https://site.env.test/"

  lemma EnvHostNoUpper() ensures NoUpper(EnvHostUrl) { }

  lemma EnvHostBank() ensures BankHit(EnvHostUrl) {
    EnvHostNoUpper();
    LowerCaseUrl(EnvHostUrl);
    ContainsAt(EnvHostUrl, ".env", 12);
    EnvBankHit(EnvHostUrl);
  }

  lemma EnvHostLogin() ensures !LoginHit(EnvHostUrl) { EnvHostNoUpper(); NoLoginHit(EnvHostUrl); }
  lemma EnvHostApi() ensures !ApiHit(EnvHostUrl) { EnvHostNoUpper(); NoApiHit(EnvHostUrl); }
  lemma EnvHostConfig() ensures !ConfigHit(EnvHostUrl) { EnvHostNoUpper(); NoConfigHit(EnvHostUrl); }
  lemma EnvHostBackup() ensures !BackupHit(EnvHostUrl) { EnvHostNoUpper(); NoBackupHit(EnvHostUrl); }
  lemma EnvHostDatabase() ensures !DatabaseHit(EnvHostUrl) { EnvHostNoUpper(); NoDatabaseHit(EnvHostUrl); }
  lemma EnvHostUpload() ensures !UploadHit("/") { NoUploadHit("/"); }

  lemma OverlayAdmin()
    ensures Overlay(Unclassified, Checks, [true, false, false, false, false, false, false])
         == Classification(Admin, High, [AdminPanelTag])
  {
  }

  /** The bank searches the whole URL, host name included: ".env" in the
      host name makes an ordinary home page an admin panel. */
  lemma EnvHostIsAdmin()
    ensures Classify(EnvHostUrl, "/") == Classification(Admin, High, [AdminPanelTag])
  {
    EnvHostBank(); EnvHostLogin(); EnvHostApi();
    EnvHostConfig(); EnvHostBackup(); EnvHostDatabase(); EnvHostUpload();
    OutcomeOf(EnvHostUrl, "/", [true, false, false, false, false, false, false]);
    OverlayAdmin();
  }

  // https://x.test/.env, path /.env

  const EnvUrl := "https://x.test/.env"

  lemma EnvNoUpper() ensures NoUpper(EnvUrl) { }

  lemma EnvBank() ensures BankHit(EnvUrl) {
    EnvNoUpper();
    LowerCaseUrl(EnvUrl);
    ContainsAt(EnvUrl, ".env", 15);
    EnvBankHit(EnvUrl);
  }

  lemma EnvLogin() ensures !LoginHit(EnvUrl) { EnvNoUpper(); NoLoginHit(EnvUrl); }
  lemma EnvApi() ensures !ApiHit(EnvUrl) { EnvNoUpper(); NoApiHit(EnvUrl); }

  lemma EnvConfig() ensures ConfigHit(EnvUrl) {
    EnvNoUpper();
    LowerCaseUrl(EnvUrl);
    assert EndsWith(EnvUrl, ConfigExtensions[0]);
  }

  lemma EnvBackup() ensures !BackupHit(EnvUrl) { EnvNoUpper(); NoBackupHit(EnvUrl); }
  lemma EnvDatabase() ensures !DatabaseHit(EnvUrl) { EnvNoUpper(); NoDatabaseHit(EnvUrl); }
  lemma EnvUpload() ensures !UploadHit("/.env") { NoUploadHit("/.env"); }

  lemma OverlayConfig()
    ensures Overlay(Unclassified, Checks, [true, false, false, true, false, false, false])
         == Classification(Configuration, High, [AdminPanelTag, ConfigTag])
  {
  }

  /** An environment file: the '.env' bank entry, then the configuration
      suffix check. */
  lemma EnvIsConfiguration()
    ensures Classify(EnvUrl, "/.env") == Classification(Configuration, High, [AdminPanelTag, ConfigTag])
  {
    EnvBank(); EnvLogin(); EnvApi();
    EnvConfig(); EnvBackup(); EnvDatabase(); EnvUpload();
    OutcomeOf(EnvUrl, "/.env", [true, false, false, true, false, false, false]);
    OverlayConfig();
  }

  // http://x/uploads/dump.sql, path /uploads/dump.sql

  const DumpUrl := "http://x/uploads/dump.sql"

  lemma DumpNoUpper() ensures NoUpper(DumpUrl) { }

  lemma DumpBank() ensures BankHit(DumpUrl) {
    DumpNoUpper();
    LowerCaseUrl(DumpUrl);
    assert EndsWith(DumpUrl, ".sql");
    SqlBankHit(DumpUrl);
  }

  lemma DumpLogin() ensures !LoginHit(DumpUrl) { DumpNoUpper(); NoLoginHit(DumpUrl); }
  lemma DumpApi() ensures !ApiHit(DumpUrl) { DumpNoUpper(); NoApiHit(DumpUrl); }
  lemma DumpConfig() ensures !ConfigHit(DumpUrl) { DumpNoUpper(); NoConfigHit(DumpUrl); }
  lemma DumpBackup() ensures !BackupHit(DumpUrl) { DumpNoUpper(); NoBackupHit(DumpUrl); }

  lemma DumpDatabase() ensures DatabaseHit(DumpUrl) {
    DumpNoUpper();
    LowerCaseUrl(DumpUrl);
    assert EndsWith(DumpUrl, DatabaseExtensions[0]);
  }

  lemma DumpUpload() ensures UploadHit("/uploads/dump.sql") {
    ContainsAt("/uploads/dump.sql", "/upload", 0);
  }

  lemma OverlayResource()
    ensures Overlay(Unclassified, Checks, [true, false, false, false, false, true, true])
         == Classification(Resource, Medium, [AdminPanelTag, DatabaseTag, UploadTag])
  {
  }

  /** A database dump inside an upload directory: the upload check runs
      last, so type and risk are those of an uploaded resource although
      the database tag stays. */
  lemma DumpIsResource()
    ensures Classify(DumpUrl, "/uploads/dump.sql")
         == Classification(Resource, Medium, [AdminPanelTag, DatabaseTag, UploadTag])
  {
    DumpBank(); DumpLogin(); DumpApi();
    DumpConfig(); DumpBackup(); DumpDatabase(); DumpUpload();
    OutcomeOf(DumpUrl, "/uploads/dump.sql", [true, false, false, false, false, true, true]);
    OverlayResource();
  }
}
