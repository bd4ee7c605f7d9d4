/**
 * Site configuration derived from the process environment
 * (src/site/config.ts): which storage providers are configured, which one is
 * current, the feature switches, the setup checklist and whether the site is
 * ready. Every value is a pure function of the environment map.
 */
module SiteConfig {
  import opened Js

  /** The process environment: a variable that is not set has no key. */
  type Env = map<string, string>

  /** `process.env[name] ?? ''`. */
  function Var(env: Env, name: string): string {
    if name in env then env[name] else ""
  }

  /** `(process.env[name] ?? '').length > 0`, which is also the truthiness of `process.env[name]`. */
  predicate IsSet(env: Env, name: string) {
    |Var(env, name)| > 0
  }

  // ---- META / DOMAINS ----

  const DefaultSiteTitle: string := "Photo Blog"

  /** `NEXT_PUBLIC_SITE_TITLE || 'Photo Blog'`. */
  function SiteTitle(env: Env): (title: string)
    ensures title != ""
    ensures !IsSet(env, "NEXT_PUBLIC_SITE_TITLE") ==> title == DefaultSiteTitle
    ensures IsSet(env, "NEXT_PUBLIC_SITE_TITLE") ==> title == env["NEXT_PUBLIC_SITE_TITLE"]
  {
    if IsSet(env, "NEXT_PUBLIC_SITE_TITLE") then Var(env, "NEXT_PUBLIC_SITE_TITLE") else DefaultSiteTitle
  }

  /**
   * The production URL of the project, derived from a branch deployment URL
   * of the form `<project>-git-<branch>-<team>.vercel.app`: defined only when
   * both the branch URL and the branch name are set.
   */
  function VercelProjectUrl(env: Env): (url: Option<string>)
    ensures url.Some? <==> IsSet(env, "NEXT_PUBLIC_VERCEL_BRANCH_URL") && IsSet(env, "NEXT_PUBLIC_VERCEL_GIT_COMMIT_REF")
    ensures url.Some? ==> EndsWith(url.value, ".vercel.app")
    ensures url.Some? ==>
      var project := url.value[..|url.value| - |".vercel.app"|];
      && StartsWith(Var(env, "NEXT_PUBLIC_VERCEL_BRANCH_URL"), project)
      && forall i :: 0 <= i < |project| ==>
           !StartsWith(Var(env, "NEXT_PUBLIC_VERCEL_BRANCH_URL")[i..], "-git-" + Var(env, "NEXT_PUBLIC_VERCEL_GIT_COMMIT_REF") + "-")
  {
    var branchUrl := Var(env, "NEXT_PUBLIC_VERCEL_BRANCH_URL");
    var branch := Var(env, "NEXT_PUBLIC_VERCEL_GIT_COMMIT_REF");
    if |branchUrl| > 0 && |branch| > 0 then
      var project := BeforeFirst(branchUrl, "-git-" + branch + "-");
      var url := project + ".vercel.app";
      assert url[..|url| - |".vercel.app"|] == project;
      assert url[|url| - |".vercel.app"|..] == ".vercel.app";
      Some(url)
    else None
  }

  // ---- STORAGE ----

  predicate HasVercelBlobStorage(env: Env) {
    IsSet(env, "BLOB_READ_WRITE_TOKEN")
  }

  /** The Cloudflare R2 variables a browser needs to build URLs. */
  predicate HasCloudflareR2StorageClient(env: Env) {
    && IsSet(env, "NEXT_PUBLIC_CLOUDFLARE_R2_BUCKET")
    && IsSet(env, "NEXT_PUBLIC_CLOUDFLARE_R2_ACCOUNT_ID")
    && IsSet(env, "NEXT_PUBLIC_CLOUDFLARE_R2_PUBLIC_DOMAIN")
  }

  /** A complete Cloudflare R2 setup: the client variables and both server keys. */
  predicate HasCloudflareR2Storage(env: Env)
    ensures HasCloudflareR2Storage(env) ==> HasCloudflareR2StorageClient(env)
  {
    && HasCloudflareR2StorageClient(env)
    && IsSet(env, "CLOUDFLARE_R2_ACCESS_KEY")
    && IsSet(env, "CLOUDFLARE_R2_SECRET_ACCESS_KEY")
  }

  /** The AWS S3 variables a browser needs to build URLs. */
  predicate HasAwsS3StorageClient(env: Env) {
    IsSet(env, "NEXT_PUBLIC_AWS_S3_BUCKET") && IsSet(env, "NEXT_PUBLIC_AWS_S3_REGION")
  }

  /** A complete AWS S3 setup: the client variables and both server keys. */
  predicate HasAwsS3Storage(env: Env)
    ensures HasAwsS3Storage(env) ==> HasAwsS3StorageClient(env)
  {
    && HasAwsS3StorageClient(env)
    && IsSet(env, "AWS_S3_ACCESS_KEY")
    && IsSet(env, "AWS_S3_SECRET_ACCESS_KEY")
  }

  /** `[blob, r2, s3]`, the list the source filters with `Boolean`. */
  function ProviderFlags(env: Env): seq<bool> {
    [HasVercelBlobStorage(env), HasCloudflareR2Storage(env), HasAwsS3Storage(env)]
  }

  /** `flags.filter(Boolean).length`. */
  function CountTrue(flags: seq<bool>): (n: nat)
    ensures n <= |flags|
    ensures n == 0 <==> forall i :: 0 <= i < |flags| ==> !flags[i]
  {
    if flags == [] then 0 else (if flags[0] then 1 else 0) + CountTrue(flags[1..])
  }

  /** Counting three flags. */
  lemma CountThree(a: bool, b: bool, c: bool)
    ensures CountTrue([a, b, c]) == (if a then 1 else 0) + (if b then 1 else 0) + (if c then 1 else 0)
  {
    assert [a, b, c][1..] == [b, c] && [b, c][1..] == [c] && [c][1..] == [];
    assert CountTrue([c]) == if c then 1 else 0;
    assert CountTrue([b, c]) == (if b then 1 else 0) + CountTrue([c]);
  }

  predicate HasMultipleStorageProviders(env: Env) {
    CountTrue(ProviderFlags(env)) > 1
  }

  /** More than one provider is configured exactly when some two of the three are. */
  lemma MultipleProvidersIffTwo(env: Env)
    ensures HasMultipleStorageProviders(env) <==>
      || (HasVercelBlobStorage(env) && HasCloudflareR2Storage(env))
      || (HasVercelBlobStorage(env) && HasAwsS3Storage(env))
      || (HasCloudflareR2Storage(env) && HasAwsS3Storage(env))
  {
    CountThree(HasVercelBlobStorage(env), HasCloudflareR2Storage(env), HasAwsS3Storage(env));
  }

  const StorageVercelBlob: string := "vercel-blob"
  const StorageCloudflareR2: string := "cloudflare-r2"
  const StorageAwsS3: string := "aws-s3"

  /**
   * The storage in use: an explicit preference wins (its text is taken as
   * is); otherwise Cloudflare R2 when its client variables are complete, else
   * AWS S3 when its client variables are complete, else Vercel Blob.
   */
  function CurrentStorage(env: Env): (storage: string)
    ensures IsSet(env, "NEXT_PUBLIC_STORAGE_PREFERENCE") ==> storage == env["NEXT_PUBLIC_STORAGE_PREFERENCE"]
    ensures !IsSet(env, "NEXT_PUBLIC_STORAGE_PREFERENCE") ==>
      storage == (if HasCloudflareR2StorageClient(env) then StorageCloudflareR2
                  else if HasAwsS3StorageClient(env) then StorageAwsS3
                  else StorageVercelBlob)
  {
    var preference := Var(env, "NEXT_PUBLIC_STORAGE_PREFERENCE");
    if |preference| > 0 then preference
    else if HasCloudflareR2StorageClient(env) then StorageCloudflareR2
    else if HasAwsS3StorageClient(env) then StorageAwsS3
    else StorageVercelBlob
  }

  /**
   * Without a preference, a complete R2 setup is always chosen, and a
   * complete S3 setup is chosen unless R2 client variables are present.
   */
  lemma CurrentStorageFollowsFullSetups(env: Env)
    requires !IsSet(env, "NEXT_PUBLIC_STORAGE_PREFERENCE")
    ensures HasCloudflareR2Storage(env) ==> CurrentStorage(env) == StorageCloudflareR2
    ensures HasAwsS3Storage(env) && !HasCloudflareR2StorageClient(env) ==> CurrentStorage(env) == StorageAwsS3
    ensures CurrentStorage(env) in {StorageCloudflareR2, StorageAwsS3, StorageVercelBlob}
  {
  }

  // ---- SETTINGS ----

  /** An enable-style switch: on exactly when the variable is the text `'1'`. */
  predicate Enabled(env: Env, name: string)
    ensures Enabled(env, name) <==> Var(env, name) == "1"
  {
    name in env && env[name] == "1"
  }

  predicate ProModeEnabled(env: Env) { Enabled(env, "NEXT_PUBLIC_PRO_MODE") }
  predicate BlurEnabled(env: Env) { !Enabled(env, "NEXT_PUBLIC_BLUR_DISABLED") }
  predicate GeoPrivacyEnabled(env: Env) { Enabled(env, "NEXT_PUBLIC_GEO_PRIVACY") }
  predicate PriorityOrderEnabled(env: Env) { !Enabled(env, "NEXT_PUBLIC_IGNORE_PRIORITY_ORDER") }
  predicate PublicApiEnabled(env: Env) { Enabled(env, "NEXT_PUBLIC_PUBLIC_API") }
  predicate ShowRepoLink(env: Env) { !Enabled(env, "NEXT_PUBLIC_HIDE_REPO_LINK") }
  predicate ShowFilmSimulations(env: Env) { !Enabled(env, "NEXT_PUBLIC_HIDE_FILM_SIMULATIONS") }
  predicate ShowExifData(env: Env) { !Enabled(env, "NEXT_PUBLIC_HIDE_EXIF_DATA") }

  /**
   * Disable-style switches default to on: priority ordering is used unless
   * the ignore variable is exactly `'1'`; any other text, or none, keeps it.
   */
  lemma SwitchDefaults(env: Env)
    requires "NEXT_PUBLIC_IGNORE_PRIORITY_ORDER" !in env && "NEXT_PUBLIC_BLUR_DISABLED" !in env
    requires "NEXT_PUBLIC_GEO_PRIVACY" !in env && "NEXT_PUBLIC_PRO_MODE" !in env
    ensures PriorityOrderEnabled(env) && BlurEnabled(env)
    ensures !GeoPrivacyEnabled(env) && !ProModeEnabled(env)
  {
  }

  /** `(NEXT_PUBLIC_OG_TEXT_ALIGNMENT ?? '').toUpperCase() === 'BOTTOM'`. */
  predicate OgTextBottomAlignment(env: Env)
    ensures OgTextBottomAlignment(env) ==> |Var(env, "NEXT_PUBLIC_OG_TEXT_ALIGNMENT")| == 6
    ensures "NEXT_PUBLIC_OG_TEXT_ALIGNMENT" !in env ==> !OgTextBottomAlignment(env)
  {
    Upper(Var(env, "NEXT_PUBLIC_OG_TEXT_ALIGNMENT")) == "BOTTOM"
  }

  /**
   * Bottom alignment is recognised in any letter case: the upper-cased
   * comparison agrees with a lower-cased one, so "bottom", "Bottom",
   * "bOtToM" and every other mix select it, and nothing else does.
   */
  lemma OgTextBottomAlignmentIgnoresCase(env: Env)
    ensures OgTextBottomAlignment(env) <==> Lower(Var(env, "NEXT_PUBLIC_OG_TEXT_ALIGNMENT")) == "bottom"
  {
    var v := Var(env, "NEXT_PUBLIC_OG_TEXT_ALIGNMENT");
    if |v| == 6 {
      forall i | 0 <= i < 6
        ensures UpperChar(v[i]) == "BOTTOM"[i] <==> LowerChar(v[i]) == "bottom"[i]
      {
        SameLetter(v[i], "BOTTOM"[i], "bottom"[i]);
      }
      if Upper(v) == "BOTTOM" {
        assert forall i | 0 <= i < 6 :: Lower(v)[i] == "bottom"[i];
      }
      if Lower(v) == "bottom" {
        assert forall i | 0 <= i < 6 :: Upper(v)[i] == "BOTTOM"[i];
      }
    }
  }

  /** A character upper-cases to a letter exactly when it lower-cases to that letter's lower case. */
  lemma SameLetter(c: char, upper: char, lower: char)
    requires 'A' <= upper <= 'Z' && lower as int == upper as int + 32
    ensures UpperChar(c) == upper <==> LowerChar(c) == lower
  {
  }

  // ---- CHECKLIST ----

  datatype ChecklistStatus = ChecklistStatus(
    hasPostgres: bool,
    hasVercelBlobStorage: bool,
    hasCloudflareR2Storage: bool,
    hasAwsS3Storage: bool,
    hasStorage: bool,
    hasMultipleStorageProviders: bool,
    currentStorage: string,
    hasAuthSecret: bool,
    hasAdminUser: bool,
    hasTitle: bool,
    hasDomain: bool,
    showRepoLink: bool,
    showFilmSimulations: bool,
    showExifInfo: bool,
    isProModeEnabled: bool,
    isBlurEnabled: bool,
    isGeoPrivacyEnabled: bool,
    isPriorityOrderEnabled: bool,
    isPublicApiEnabled: bool,
    isOgTextBottomAligned: bool)

  /** The setup checklist shown to the site owner. */
  function ConfigChecklistStatus(env: Env): (status: ChecklistStatus)
  {
    ChecklistStatus(
      hasPostgres := IsSet(env, "POSTGRES_HOST"),
      hasVercelBlobStorage := HasVercelBlobStorage(env),
      hasCloudflareR2Storage := HasCloudflareR2Storage(env),
      hasAwsS3Storage := HasAwsS3Storage(env),
      hasStorage := HasVercelBlobStorage(env) || HasCloudflareR2Storage(env) || HasAwsS3Storage(env),
      hasMultipleStorageProviders := HasMultipleStorageProviders(env),
      currentStorage := CurrentStorage(env),
      hasAuthSecret := IsSet(env, "AUTH_SECRET"),
      hasAdminUser := IsSet(env, "ADMIN_EMAIL") && IsSet(env, "ADMIN_PASSWORD"),
      hasTitle := IsSet(env, "NEXT_PUBLIC_SITE_TITLE"),
      hasDomain := IsSet(env, "NEXT_PUBLIC_SITE_DOMAIN"),
      showRepoLink := ShowRepoLink(env),
      showFilmSimulations := ShowFilmSimulations(env),
      showExifInfo := ShowExifData(env),
      isProModeEnabled := ProModeEnabled(env),
      isBlurEnabled := BlurEnabled(env),
      isGeoPrivacyEnabled := GeoPrivacyEnabled(env),
      isPriorityOrderEnabled := PriorityOrderEnabled(env),
      isPublicApiEnabled := PublicApiEnabled(env),
      isOgTextBottomAligned := OgTextBottomAlignment(env))
  }

  /**
   * The checklist reports storage exactly when at least one provider is
   * fully configured, so several providers imply storage.
   */
  lemma ChecklistStorage(env: Env)
    ensures var status := ConfigChecklistStatus(env);
      && (status.hasStorage <==> CountTrue(ProviderFlags(env)) >= 1)
      && (status.hasMultipleStorageProviders ==> status.hasStorage)
  {
    CountThree(HasVercelBlobStorage(env), HasCloudflareR2Storage(env), HasAwsS3Storage(env));
  }

  /** The site is ready when Postgres, some storage, the auth secret and an admin user are all configured. */
  predicate IsSiteReady(env: Env)
    ensures IsSiteReady(env) <==>
      && IsSet(env, "POSTGRES_HOST")
      && (HasVercelBlobStorage(env) || HasCloudflareR2Storage(env) || HasAwsS3Storage(env))
      && IsSet(env, "AUTH_SECRET")
      && IsSet(env, "ADMIN_EMAIL") && IsSet(env, "ADMIN_PASSWORD")
  {
    var status := ConfigChecklistStatus(env);
    status.hasPostgres && status.hasStorage && status.hasAuthSecret && status.hasAdminUser
  }
}
