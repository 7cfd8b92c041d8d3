/** Which local release stands for a release from the server: an installed one of the same content, or a
    new one under a version that is free. */
module LocalRelease {
  import opened Outcomes
  import opened Lists
  import opened ReleaseOverlay
  import opened OverlayFixpoints
  import opened Resync

  const U64_MAX: nat := 0xFFFF_FFFF_FFFF_FFFF

  type Version = v: nat | v <= U64_MAX

  datatype Release = Release(version: Version, hash: string, manifest: Manifest)

  datatype ReleaseError = InvalidManifest | VersionIsZero | VersionsExhausted

  /** The content hash of a manifest, and the validation rules that are not structural. */
  datatype Rules = Rules(hash: Manifest -> string, portable: Manifest -> bool)
  {
    predicate Accepts(m: Manifest) {
      Valid(m) && portable(m)
    }

    ghost predicate Injective() {
      forall a, b :: hash(a) == hash(b) ==> a == b
    }
  }

  /** Releases as a store holds them: true hashes, and every version once. */
  ghost predicate IsStore(rules: Rules, installed: seq<Release>) {
    && (forall i :: 0 <= i < |installed| ==> installed[i].hash == rules.hash(installed[i].manifest))
    && (forall i, j :: 0 <= i < j < |installed| ==> installed[i].version != installed[j].version)
  }

  function NewRelease(rules: Rules, version: Version, m: Manifest): Result<Release, ReleaseError> {
    if version == 0 then Err(VersionIsZero)
    else if !rules.Accepts(m) then Err(InvalidManifest)
    else Ok(Release(version, rules.hash(m), m))
  }

  /** The first release with this content, or the number of releases. */
  function WithHash(installed: seq<Release>, hash: string): (i: nat)
    ensures i <= |installed|
    ensures i < |installed| ==> installed[i].hash == hash
    ensures forall j :: 0 <= j < i ==> installed[j].hash != hash
  {
    if installed == [] || installed[0].hash == hash then 0 else 1 + WithHash(installed[1..], hash)
  }

  predicate VersionTaken(installed: seq<Release>, version: Version) {
    exists i :: 0 <= i < |installed| && installed[i].version == version
  }

  function MaxVersion(installed: seq<Release>): (v: Version)
    ensures forall i :: 0 <= i < |installed| ==> installed[i].version <= v
    ensures installed != [] ==> VersionTaken(installed, v)
  {
    if installed == [] then 0
    else
      var rest := MaxVersion(installed[1..]);
      if installed[0].version > rest || |installed| == 1 then
        assert VersionTaken(installed, installed[0].version);
        installed[0].version
      else
        assert forall i :: 0 <= i < |installed[1..]| ==> installed[1..][i] == installed[i + 1];
        rest
  }

  /** The release's manifest for this project, under the source's Python agents if there is a source. */
  function LocalManifest(remote: Manifest, project: string, source: Option<Manifest>): Manifest {
    var m := remote.(project := project);
    if source.Some? then Overlay(m, source.value) else m
  }

  function LocalEmbeddedRelease(
      rules: Rules, remote: Release, project: string, installed: seq<Release>, source: Option<Manifest>)
    : Result<Release, ReleaseError>
  {
    var mapped := remote.manifest.(project := project);
    var m := LocalManifest(remote.manifest, project, source);
    if !rules.Accepts(mapped) || !rules.Accepts(m) then Err(InvalidManifest)
    else
      var candidate := NewRelease(rules, remote.version, m);
      if candidate.Err? then candidate
      else
        var i := WithHash(installed, candidate.value.hash);
        if i < |installed| then Ok(installed[i])
        else if !VersionTaken(installed, remote.version) then NewRelease(rules, remote.version, m)
        else if MaxVersion(installed) == U64_MAX then Err(VersionsExhausted)
        else NewRelease(rules, MaxVersion(installed) + 1, m)
  }

  /** What saving a release does to the store. */
  function Installed(installed: seq<Release>, release: Release): seq<Release> {
    if release in installed then installed else installed + [release]
  }

  /** The release that is chosen has exactly the overlaid manifest, and installing it keeps the store
      sound: no version is ever given to two contents. */
  lemma ChoiceIsSound(rules: Rules, remote: Release, project: string, installed: seq<Release>, source: Option<Manifest>)
    requires rules.Injective() && IsStore(rules, installed)
    requires LocalEmbeddedRelease(rules, remote, project, installed, source).Ok?
    ensures var release := LocalEmbeddedRelease(rules, remote, project, installed, source).value;
      release.manifest == LocalManifest(remote.manifest, project, source)
      && (release.version > 0 || release in installed)
    ensures var release := LocalEmbeddedRelease(rules, remote, project, installed, source).value;
      release.hash == rules.hash(release.manifest) && IsStore(rules, Installed(installed, release))
  {
    var release := LocalEmbeddedRelease(rules, remote, project, installed, source).value;
    if release !in installed {
      NewVersionIsFree(rules, remote, project, installed, source, release);
      InstallingIsSound(rules, installed, release);
    }
  }

  lemma NewVersionIsFree(
      rules: Rules, remote: Release, project: string, installed: seq<Release>, source: Option<Manifest>, release: Release)
    requires LocalEmbeddedRelease(rules, remote, project, installed, source) == Ok(release) && release !in installed
    ensures !VersionTaken(installed, release.version) && release.hash == rules.hash(release.manifest)
  {
  }

  /** A release of new content keeps the server's version if that is free, and else follows the largest one. */
  lemma NewReleaseKeepsItsVersion(
      rules: Rules, remote: Release, project: string, installed: seq<Release>, source: Option<Manifest>, release: Release)
    requires rules.Injective() && IsStore(rules, installed)
    requires LocalEmbeddedRelease(rules, remote, project, installed, source) == Ok(release)
    ensures HasManifest(installed, LocalManifest(remote.manifest, project, source)) ==> release in installed
    ensures release !in installed && !VersionTaken(installed, remote.version) ==> release.version == remote.version
    ensures release !in installed && VersionTaken(installed, remote.version) ==>
      && (forall i :: 0 <= i < |installed| ==> installed[i].version < release.version)
      && VersionTaken(installed, release.version - 1)
  {
    FoundByContent(rules, installed, LocalManifest(remote.manifest, project, source));
    if VersionTaken(installed, remote.version) { assert installed != []; }
  }

  lemma InstallingIsSound(rules: Rules, installed: seq<Release>, release: Release)
    requires IsStore(rules, installed) && !VersionTaken(installed, release.version)
    requires release.hash == rules.hash(release.manifest)
    ensures IsStore(rules, installed + [release])
  {
  }

  /** Syncing the same release again over an unchanged manifest chooses the release that is installed. */
  lemma {:induction false} ChoiceIsStable(
      rules: Rules, remote: Release, project: string, installed: seq<Release>, source: Option<Manifest>,
      later: Option<Manifest>)
    requires IsStore(rules, installed)
    requires LocalEmbeddedRelease(rules, remote, project, installed, source).Ok?
    requires LocalManifest(remote.manifest, project, later) == LocalManifest(remote.manifest, project, source)
    ensures var release := LocalEmbeddedRelease(rules, remote, project, installed, source);
      LocalEmbeddedRelease(rules, remote, project, Installed(installed, release.value), later) == release
  {
    var release := LocalEmbeddedRelease(rules, remote, project, installed, source).value;
    var hash := rules.hash(LocalManifest(remote.manifest, project, source));
    var next := Installed(installed, release);
    if WithHash(installed, hash) < |installed| {
      assert release in installed;
    } else {
      assert forall i :: 0 <= i < |installed| ==> installed[i].hash != hash;
      assert next[|installed|] == release;
      assert WithHash(next, hash) == |installed|;
    }
  }

  /** One sync of a release with the server: what is installed and which manifest is active afterwards. */
  datatype Store = Store(installed: seq<Release>, active: Manifest)

  function Sync(rules: Rules, remote: Release, project: string, store: Store): Result<Store, ReleaseError> {
    match LocalEmbeddedRelease(rules, remote, project, store.installed, Some(store.active))
    case Ok(release) => Ok(Store(Installed(store.installed, release), release.manifest))
    case Err(error) => Err(error)
  }

  /** However often one release is synced, the store stops changing after the second time. */
  lemma SyncsSettle(rules: Rules, remote: Release, project: string, store: Store)
    requires rules.Injective() && IsStore(rules, store.installed) && UniqueIds(store.active)
    requires Sync(rules, remote, project, store).Ok?
    ensures var second := Sync(rules, remote, project, Sync(rules, remote, project, store).value);
      second.Ok? ==> IsStore(rules, second.value.installed) && Sync(rules, remote, project, second.value) == second
  {
    var r := remote.manifest.(project := project);
    var first := Sync(rules, remote, project, store).value;
    ChoiceIsSound(rules, remote, project, store.installed, Some(store.active));
    assert first.active == Overlay(r, store.active);
    if Sync(rules, remote, project, first).Ok? {
      var second := Sync(rules, remote, project, first).value;
      ChoiceIsSound(rules, remote, project, first.installed, Some(first.active));
      assert second.active == Overlay(r, first.active);
      TwoRoundsSettle(r, store.active);
      ChoiceIsStable(rules, remote, project, first.installed, Some(first.active), Some(second.active));
      assert Installed(second.installed, LocalEmbeddedRelease(rules, remote, project, first.installed, Some(first.active)).value)
        == second.installed;
    }
  }

  // --- When the choice fails --------------------------------------------------------------------

  predicate HasManifest(installed: seq<Release>, m: Manifest) {
    exists i :: 0 <= i < |installed| && installed[i].manifest == m
  }

  lemma FoundByContent(rules: Rules, installed: seq<Release>, m: Manifest)
    requires rules.Injective() && IsStore(rules, installed)
    ensures WithHash(installed, rules.hash(m)) < |installed| <==> HasManifest(installed, m)
  {
    var i := WithHash(installed, rules.hash(m));
    if i < |installed| {
      assert rules.hash(installed[i].manifest) == rules.hash(m);
    }
    if HasManifest(installed, m) {
      var j :| 0 <= j < |installed| && installed[j].manifest == m;
      assert installed[j].hash == rules.hash(m);
    }
  }

  lemma NoVersionIsLeft(installed: seq<Release>)
    ensures MaxVersion(installed) == U64_MAX <==> VersionTaken(installed, U64_MAX)
  {
    if VersionTaken(installed, U64_MAX) {
      var i :| 0 <= i < |installed| && installed[i].version == U64_MAX;
      assert installed[i].version <= MaxVersion(installed);
    }
  }

  /** The choice fails exactly for a manifest that is refused before or after the overlay, for version
      zero, and when the content is not installed although the release's version and the largest version are. */
  lemma ChoiceFails(rules: Rules, remote: Release, project: string, installed: seq<Release>, source: Option<Manifest>)
    requires rules.Injective() && IsStore(rules, installed)
    ensures var m := LocalManifest(remote.manifest, project, source);
      LocalEmbeddedRelease(rules, remote, project, installed, source).Err?
      <==> || !rules.Accepts(remote.manifest.(project := project)) || !rules.Accepts(m) || remote.version == 0
           || (!HasManifest(installed, m)
               && VersionTaken(installed, remote.version) && VersionTaken(installed, U64_MAX))
  {
    FoundByContent(rules, installed, LocalManifest(remote.manifest, project, source));
    NoVersionIsLeft(installed);
  }
}
