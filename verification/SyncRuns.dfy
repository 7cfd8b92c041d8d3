/** The embedded store over a whole run of syncs with releases of any kind, in any order. */
module SyncRuns {
  import opened Outcomes
  import opened ReleaseOverlay
  import opened LocalRelease

  /** The store after some syncs. A sync that fails changes nothing. */
  function After(rules: Rules, project: string, store: Store, remotes: seq<Release>): Store {
    if remotes == [] then store
    else
      var before := After(rules, project, store, remotes[..|remotes| - 1]);
      var next := Sync(rules, remotes[|remotes| - 1], project, before);
      if next.Ok? then next.value else before
  }

  /** No content is installed twice. */
  predicate ContentOnce(installed: seq<Release>) {
    forall i, j :: 0 <= i < j < |installed| ==> installed[i].manifest != installed[j].manifest
  }

  predicate VersionsUpTo(releases: seq<Release>, limit: nat) {
    forall i :: 0 <= i < |releases| ==> releases[i].version <= limit
  }

  /** What one sync does to a sound store: nothing, or one release of new content under a new version. */
  lemma SyncAddsAtMostOne(rules: Rules, remote: Release, project: string, store: Store, limit: nat)
    requires rules.Injective() && IsStore(rules, store.installed) && ContentOnce(store.installed)
    requires VersionsUpTo(store.installed, limit) && remote.version <= limit + 1
    requires Sync(rules, remote, project, store).Ok?
    ensures var next := Sync(rules, remote, project, store).value;
      && IsStore(rules, next.installed) && ContentOnce(next.installed)
      && (next.installed == store.installed
          || (exists release :: next.installed == store.installed + [release] && release.version <= limit + 1))
  {
    var source := Some(store.active);
    var release := LocalEmbeddedRelease(rules, remote, project, store.installed, source).value;
    ChoiceIsSound(rules, remote, project, store.installed, source);
    if release !in store.installed {
      NewContentIsNew(rules, remote, project, store.installed, source, release);
      NewVersionIsBounded(rules, remote, project, store.installed, source, release, limit);
      assert Sync(rules, remote, project, store).value.installed == store.installed + [release];
    }
  }

  lemma NewContentIsNew(
      rules: Rules, remote: Release, project: string, installed: seq<Release>, source: Option<Manifest>, release: Release)
    requires rules.Injective() && IsStore(rules, installed)
    requires LocalEmbeddedRelease(rules, remote, project, installed, source) == Ok(release) && release !in installed
    ensures !HasManifest(installed, release.manifest)
  {
    FoundByContent(rules, installed, LocalManifest(remote.manifest, project, source));
    ChoiceIsSound(rules, remote, project, installed, source);
  }

  lemma NewVersionIsBounded(
      rules: Rules, remote: Release, project: string, installed: seq<Release>, source: Option<Manifest>,
      release: Release, limit: nat)
    requires LocalEmbeddedRelease(rules, remote, project, installed, source) == Ok(release) && release !in installed
    requires VersionsUpTo(installed, limit) && remote.version <= limit + 1
    ensures release.version <= limit + 1
  {
    if installed != [] {
      var i :| 0 <= i < |installed| && installed[i].version == MaxVersion(installed);
    }
  }

  /** Over every run the store stays sound, keeps what it had, holds every content once, and gives out no more
      versions above those it was shown than it has new releases. */
  lemma {:induction false} RunsKeepTheStore(rules: Rules, project: string, store: Store, remotes: seq<Release>, limit: nat)
    requires rules.Injective() && IsStore(rules, store.installed) && ContentOnce(store.installed)
    requires VersionsUpTo(store.installed, limit) && VersionsUpTo(remotes, limit)
    ensures var end := After(rules, project, store, remotes).installed;
      && IsStore(rules, end) && ContentOnce(end)
      && store.installed <= end && |end| <= |store.installed| + |remotes|
      && VersionsUpTo(end, limit + (|end| - |store.installed|))
  {
    if remotes != [] {
      var front, last := remotes[..|remotes| - 1], remotes[|remotes| - 1];
      RunsKeepTheStore(rules, project, store, front, limit);
      var before := After(rules, project, store, front);
      if Sync(rules, last, project, before).Ok? {
        SyncAddsAtMostOne(rules, last, project, before, limit + (|before.installed| - |store.installed|));
      }
    }
  }

  /** So versions do not run out before 2^64 - 1 minus the largest one shown to the store is used up: until then
      the next sync fails for a refused manifest or version zero, and for nothing else. */
  lemma VersionsLast(rules: Rules, project: string, store: Store, remotes: seq<Release>, next: Release, limit: nat)
    requires rules.Injective() && IsStore(rules, store.installed) && ContentOnce(store.installed)
    requires VersionsUpTo(store.installed, limit) && VersionsUpTo(remotes, limit)
    requires limit + |remotes| < U64_MAX
    ensures var end := After(rules, project, store, remotes); var m := next.manifest.(project := project);
      Sync(rules, next, project, end).Err?
      <==> !rules.Accepts(m) || !rules.Accepts(Overlay(m, end.active)) || next.version == 0
  {
    RunsKeepTheStore(rules, project, store, remotes, limit);
    var end := After(rules, project, store, remotes);
    ChoiceFails(rules, next, project, end.installed, Some(end.active));
  }
}
