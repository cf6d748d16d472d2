/**
 * The self-updater (includes/class-updater.php): it reads the latest GitHub
 * release, turns its tag into a version, picks the package to download, and
 * offers an update through the `update_plugins` site transient.
 *
 * Fetching the release (`get_latest_release`, an HTTP call with a cached
 * copy) is not modelled: the release arrives as a parameter, `None` standing
 * for every answer PHP treats as false (an error, a non-200 status, a body
 * that is not a JSON object, an empty object).
 */
module Updater {
  import opened Php
  import opened WordPress

  /** `Updater::CACHE_KEY`, the site transient holding the cached release. */
  const CacheKey := "soumais_locator_latest_release"
  /** `Updater::REPO`. */
  const Repo := "Lucasedu191/Sou-Mais-Localizador"
  /** `get_slug()`. */
  const Slug := "soumais-localizador"

  /** One entry of the release's `assets`; an absent key is `Null`. */
  datatype Asset = Asset(name: Value, downloadUrl: Value)

  /**
   * The fields of the decoded release the updater reads; an absent key is
   * `Null`, and `assets` is `None` when it is absent or not an array.
   */
  datatype Release = Release(
    tagName: Value,
    htmlUrl: Value,
    assets: Option<seq<Asset>>,
    zipballUrl: Value,
    body: Value)

  /** `$v ?? ''`. */
  function OrEmptyString(v: Value): (r: Value)
    ensures r != Null
    ensures v != Null ==> r == v
  {
    if v == Null then Str("") else v
  }

  // ---------------------------------------------------------------------------
  // normalize_version
  // ---------------------------------------------------------------------------

  predicate IsV(ch: char)
  {
    ch == 'v' || ch == 'V'
  }

  /** `ltrim($s, 'vV')`: the suffix left once every leading 'v' and 'V' is cut. */
  function TrimLeadingV(s: string): (r: string)
    ensures |r| <= |s| && r == s[|s| - |r|..]
    ensures forall i :: 0 <= i < |s| - |r| ==> IsV(s[i])
    ensures r == [] || !IsV(r[0])
  {
    if s != [] && IsV(s[0]) then
      var r := TrimLeadingV(s[1..]);
      assert s[1..][|s| - 1 - |r|..] == s[|s| - |r|..];
      assert forall i :: 1 <= i < |s| - |r| ==> s[i] == s[1..][i - 1];
      r
    else s
  }

  /** Cutting the prefix twice is cutting it once. */
  lemma {:induction false} TrimLeadingVIdempotent(s: string)
    ensures TrimLeadingV(TrimLeadingV(s)) == TrimLeadingV(s)
  {
    var r := TrimLeadingV(s);
    assert r == [] || !IsV(r[0]);
  }

  /**
   * `normalize_version($tag)`: '' for an empty tag, otherwise the tag as a
   * string with its leading 'v'/'V' characters cut.
   */
  function NormalizeVersion(c: Casts, tag: Value): (r: string)
    ensures Empty(tag) ==> r == ""
    ensures !Empty(tag) ==> r == TrimLeadingV(ToStr(c, tag))
  {
    if Empty(tag) then "" else TrimLeadingV(ToStr(c, tag))
  }

  /** A normalized version never starts with 'v' or 'V', and only such characters were cut. */
  lemma NormalizedVersionHasNoPrefix(c: Casts, tag: Value)
    ensures var r := NormalizeVersion(c, tag);
      r == [] || !IsV(r[0])
    ensures !Empty(tag) ==> var s := ToStr(c, tag); var r := NormalizeVersion(c, tag);
      |r| <= |s| && r == s[|s| - |r|..] && forall i :: 0 <= i < |s| - |r| ==> IsV(s[i])
  {
    if !Empty(tag) {
      var s := ToStr(c, tag);
      assert NormalizeVersion(c, tag) == TrimLeadingV(s);
    }
  }

  /** The tag "v0" normalizes to "0", which PHP reads as false: no update is offered for it. */
  lemma ZeroTagIsNoVersion(c: Casts)
    ensures NormalizeVersion(c, Str("v0")) == "0"
    ensures Empty(Str(NormalizeVersion(c, Str("v0"))))
  {
    var s := ToStr(c, Str("v0"));
    assert s == "v0" && s[0] == 'v' && s[1..] == "0";
    assert !IsV("0"[0]);
    assert TrimLeadingV("0") == "0";
    assert TrimLeadingV(s) == TrimLeadingV("0");
  }

  // ---------------------------------------------------------------------------
  // get_package_url
  // ---------------------------------------------------------------------------

  /** ASCII lower case, as the case-insensitive `substr_compare` folds it. */
  function LowerAscii(ch: char): char
  {
    if 'A' <= ch <= 'Z' then (ch as int + 32) as char else ch
  }

  /**
   * `0 === substr_compare($name, '.zip', -4, 4, true)`: the last four
   * characters are ".zip" in any case; a shorter name never matches.
   */
  predicate EndsWithZip(name: string)
  {
    |name| >= 4
    && LowerAscii(name[|name| - 4]) == '.'
    && LowerAscii(name[|name| - 3]) == 'z'
    && LowerAscii(name[|name| - 2]) == 'i'
    && LowerAscii(name[|name| - 1]) == 'p'
  }

  /** An asset the package search accepts: both keys set and a `.zip` name. */
  predicate IsZipAsset(c: Casts, a: Asset)
  {
    a.downloadUrl != Null && a.name != Null && EndsWithZip(ToStr(c, a.name))
  }

  /** The position of the first accepted asset. */
  function FirstZip(c: Casts, assets: seq<Asset>): (r: Option<nat>)
    ensures r.Some? ==> r.value < |assets| && IsZipAsset(c, assets[r.value])
    ensures r.Some? ==> forall j :: 0 <= j < r.value ==> !IsZipAsset(c, assets[j])
    ensures r.None? ==> forall j :: 0 <= j < |assets| ==> !IsZipAsset(c, assets[j])
  {
    if assets == [] then None
    else if IsZipAsset(c, assets[0]) then Some(0)
    else
      var rest := FirstZip(c, assets[1..]);
      assert forall j :: 1 <= j < |assets| ==> assets[j] == assets[1..][j - 1];
      match rest
      case None => None
      case Some(k) => Some(k + 1)
  }

  /**
   * What `get_package_url` answers: the download URL of the first accepted
   * asset, otherwise `zipball_url ?? ''`.
   */
  function PackageUrl(c: Casts, release: Release): (r: Value)
    ensures r != Null
  {
    if release.assets.Some? && FirstZip(c, release.assets.value).Some? then
      release.assets.value[FirstZip(c, release.assets.value).value].downloadUrl
    else OrEmptyString(release.zipballUrl)
  }

  /** The first accepted asset is the one `FirstZip` finds. */
  lemma {:induction false} FirstZipAt(c: Casts, assets: seq<Asset>, i: nat)
    requires i < |assets| && IsZipAsset(c, assets[i])
    requires forall j :: 0 <= j < i ==> !IsZipAsset(c, assets[j])
    ensures FirstZip(c, assets) == Some(i)
  {
    if i > 0 {
      assert !IsZipAsset(c, assets[0]);
      forall j | 0 <= j < i - 1 ensures !IsZipAsset(c, assets[1..][j]) {
        assert assets[1..][j] == assets[j + 1];
      }
      FirstZipAt(c, assets[1..], i - 1);
    }
  }

  /** Without an accepted asset `FirstZip` finds none. */
  lemma {:induction false} FirstZipNone(c: Casts, assets: seq<Asset>)
    requires forall j :: 0 <= j < |assets| ==> !IsZipAsset(c, assets[j])
    ensures FirstZip(c, assets) == None
  {
    if assets != [] {
      assert !IsZipAsset(c, assets[0]);
      forall j | 0 <= j < |assets| - 1 ensures !IsZipAsset(c, assets[1..][j]) {
        assert assets[1..][j] == assets[j + 1];
      }
      FirstZipNone(c, assets[1..]);
    }
  }

  /** The package is the first `.zip` asset's URL when there is one. */
  lemma PackageUrlPicksFirstZip(c: Casts, release: Release, i: nat)
    requires release.assets.Some? && i < |release.assets.value|
    requires IsZipAsset(c, release.assets.value[i])
    requires forall j :: 0 <= j < i ==> !IsZipAsset(c, release.assets.value[j])
    ensures PackageUrl(c, release) == release.assets.value[i].downloadUrl
    ensures PackageUrl(c, release) != Null
  {
    FirstZipAt(c, release.assets.value, i);
  }

  /** Without a `.zip` asset the package is the source archive, or '' when there is none. */
  lemma PackageUrlFallsBackToZipball(c: Casts, release: Release)
    requires release.assets.None? || forall j :: 0 <= j < |release.assets.value| ==> !IsZipAsset(c, release.assets.value[j])
    ensures PackageUrl(c, release) == OrEmptyString(release.zipballUrl)
  {
    if release.assets.Some? {
      FirstZipNone(c, release.assets.value);
    }
  }

  /** `get_package_url($release)`: the `foreach` over the assets that returns at the first match. */
  method GetPackageUrl(c: Casts, release: Release) returns (url: Value)
    ensures url == PackageUrl(c, release)
  {
    if release.assets.Some? {
      var assets := release.assets.value;
      var i := 0;
      while i < |assets|
        invariant 0 <= i <= |assets|
        invariant forall j :: 0 <= j < i ==> !IsZipAsset(c, assets[j])
      {
        if IsZipAsset(c, assets[i]) {
          PackageUrlPicksFirstZip(c, release, i);
          return assets[i].downloadUrl;
        }
        i := i + 1;
      }
    }
    PackageUrlFallsBackToZipball(c, release);
    url := OrEmptyString(release.zipballUrl);
  }

  // ---------------------------------------------------------------------------
  // maybe_set_update
  // ---------------------------------------------------------------------------

  /** The update entry `maybe_set_update` adds, without its two WordPress-compatibility fields, which are always the empty string. */
  datatype UpdateItem = UpdateItem(slug: string, plugin: string, newVersion: string, url: Value, package: Value)

  /**
   * The `update_plugins` site transient as the filter receives it: the
   * installed versions (`checked`) and the offered updates (`response`).
   */
  class UpdateTransient {
    var checked: map<string, string>
    var response: map<string, UpdateItem>

    constructor (checked: map<string, string>, response: map<string, UpdateItem>)
      ensures this.checked == checked && this.response == response
    {
      this.checked := checked;
      this.response := response;
    }
  }

  /**
   * The update `maybe_set_update` offers for a transient whose `checked` is
   * `checked`, or none. `pluginFile` is `plugin_basename(SOUMAIS_LOCATOR_FILE)`
   * and `localVersion` is SOUMAIS_LOCATOR_VERSION.
   */
  function Offer(wp: Platform, pluginFile: string, localVersion: string, checked: map<string, string>, release: Option<Release>): (r: Option<UpdateItem>)
    ensures r.Some? <==>
      checked != map[] && release.Some?
      && Truthy(Str(NormalizeVersion(wp.casts, release.value.tagName)))
      && !wp.versionLe(NormalizeVersion(wp.casts, release.value.tagName), localVersion)
      && Truthy(PackageUrl(wp.casts, release.value))
    ensures r.Some? ==>
      r.value.slug == Slug && r.value.plugin == pluginFile
      && r.value.newVersion == NormalizeVersion(wp.casts, release.value.tagName)
      && r.value.newVersion != "" && !IsV(r.value.newVersion[0])
      && !wp.versionLe(r.value.newVersion, localVersion)
      && r.value.package == PackageUrl(wp.casts, release.value) && Truthy(r.value.package)
      && r.value.url == OrEmptyString(release.value.htmlUrl)
  {
    if checked == map[] || release.None? then None
    else
      var remote := NormalizeVersion(wp.casts, release.value.tagName);
      if Empty(Str(remote)) || wp.versionLe(remote, localVersion) then None
      else
        var package := PackageUrl(wp.casts, release.value);
        if Empty(package) then None
        else Some(UpdateItem(Slug, pluginFile, remote, OrEmptyString(release.value.htmlUrl), package))
  }

  /**
   * `maybe_set_update($transient)`: it returns the transient it was given;
   * a null stands for a value that is not an object. When an update is
   * offered only `response[pluginFile]` changes.
   */
  method MaybeSetUpdate(t: UpdateTransient?, wp: Platform, pluginFile: string, localVersion: string, release: Option<Release>)
    returns (r: UpdateTransient?)
    modifies t
    ensures r == t
    ensures t != null ==> t.checked == old(t.checked)
    ensures t != null && Offer(wp, pluginFile, localVersion, old(t.checked), release).None? ==> t.response == old(t.response)
    ensures t != null && Offer(wp, pluginFile, localVersion, old(t.checked), release).Some? ==>
      t.response == old(t.response)[pluginFile := Offer(wp, pluginFile, localVersion, old(t.checked), release).value]
  {
    if t == null || t.checked == map[] {
      return t;
    }
    if release.None? {
      return t;
    }
    var remote := NormalizeVersion(wp.casts, release.value.tagName);
    if Empty(Str(remote)) || wp.versionLe(remote, localVersion) {
      return t;
    }
    var package := GetPackageUrl(wp.casts, release.value);
    if Empty(package) {
      return t;
    }
    t.response := t.response[pluginFile := UpdateItem(Slug, pluginFile, remote, OrEmptyString(release.value.htmlUrl), package)];
    return t;
  }

  // ---------------------------------------------------------------------------
  // plugins_api
  // ---------------------------------------------------------------------------

  /** The fields of the "View details" answer the model keeps. */
  datatype PluginInfo = PluginInfo(slug: string, version: string, homepage: Value, downloadLink: Value, description: string)

  /** What the `plugins_api` filter returns: the incoming `$result`, or this plugin's details. */
  datatype ApiAnswer = Unchanged | Info(info: PluginInfo)

  /** The description used when the release has no body. */
  const DefaultDescription := "Atualização do plugin Sou Mais Localizador."

  /**
   * `plugins_api($result, $action, $args)`: it answers only
   * 'plugin_information' requests for this plugin's slug, and only when a
   * freshly fetched release (`release`) is available.
   */
  function PluginsApi(wp: Platform, action: string, argsSlug: Value, release: Option<Release>): (r: ApiAnswer)
    ensures r.Info? <==> action == "plugin_information" && argsSlug == Str(Slug) && release.Some?
    ensures r.Info? ==>
      r.info.slug == Slug
      && r.info.version == NormalizeVersion(wp.casts, release.value.tagName)
      && r.info.downloadLink == PackageUrl(wp.casts, release.value)
    ensures r.Info? ==>
      r.info.homepage != Null
      && (release.value.htmlUrl != Null ==> r.info.homepage == release.value.htmlUrl)
      && (release.value.htmlUrl == Null ==> r.info.homepage == Str("https://github.com/" + Repo))
    ensures r.Info? ==>
      (release.value.body != Null ==> r.info.description == wp.ksesPost(ToStr(wp.casts, release.value.body)))
      && (release.value.body == Null ==> r.info.description == wp.ksesPost(DefaultDescription))
  {
    if action != "plugin_information" then Unchanged
    else if Empty(argsSlug) || argsSlug != Str(Slug) then Unchanged
    else if release.None? then Unchanged
    else
      var rel := release.value;
      Info(PluginInfo(
        slug := Slug,
        version := NormalizeVersion(wp.casts, rel.tagName),
        homepage := if rel.htmlUrl != Null then rel.htmlUrl else Str("https://github.com/" + Repo),
        downloadLink := PackageUrl(wp.casts, rel),
        description := wp.ksesPost(if rel.body != Null then ToStr(wp.casts, rel.body) else DefaultDescription)))
  }

  // ---------------------------------------------------------------------------
  // purge_cache
  // ---------------------------------------------------------------------------

  /**
   * Whether `purge_cache($upgrader, $options)` drops the cached release:
   * a plugin upgrade (`type` is exactly 'plugin') whose `plugins` array holds
   * this plugin's file.
   */
  predicate PurgesRelease(pluginFile: string, options: map<string, Value>)
  {
    "type" in options && options["type"] == Str("plugin")
    && "plugins" in options && options["plugins"].Arr?
    && Str(pluginFile) in options["plugins"].items
  }

  /** `purge_cache`: the only write is deleting the cached release. */
  method PurgeCache(site: Site, pluginFile: string, options: map<string, Value>)
    modifies site`siteTransients
    ensures PurgesRelease(pluginFile, options) ==> site.siteTransients == old(site.siteTransients) - {CacheKey}
    ensures !PurgesRelease(pluginFile, options) ==> site.siteTransients == old(site.siteTransients)
  {
    if !("type" in options) || Empty(options["type"]) || options["type"] != Str("plugin") {
      return;
    }
    if "plugins" in options && Truthy(options["plugins"]) && options["plugins"].Arr? {
      if Str(pluginFile) in options["plugins"].items {
        site.DeleteSiteTransient(CacheKey);
      }
    }
  }
}
