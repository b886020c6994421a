/** The add-on identity and release-resolution engine: the records that
    describe local add-on folders and repository responses, the logical
    `Addon` built from them, its accessors with fallbacks, the update check,
    the release-channel choice and the identity and ordering of add-ons. */
module Addons {
  import opened Options
  import opened Cmp
  import opened Iter
  import opened Strings
  import opened Utility

  // ---------------------------------------------------------------------
  // Records
  // ---------------------------------------------------------------------

  /** A UTC instant. Date strings are parsed outside this model; a record
      carries the parse result, `None` when parsing failed. */
  datatype DateTime = DateTime(secondsSinceEpoch: int)

  /** One downloadable release of an add-on. */
  datatype RemotePackage = RemotePackage(
    version: string,
    downloadUrl: string,
    dateTime: Option<DateTime>,
    fileId: Option<int>)

  /** `Ord for RemotePackage`: packages compare by version string alone. */
  function ComparePackages(a: RemotePackage, b: RemotePackage): (r: Ordering)
    ensures r == Equal <==> a.version == b.version
    ensures r == Less <==> LexLess(a.version, b.version)
    ensures r == Greater <==> LexLess(b.version, a.version)
  {
    CompareStrLessIff(a.version, b.version);
    CompareStrLessIff(b.version, a.version);
    CompareStrAntisymmetric(a.version, b.version);
    CompareStr(a.version, b.version)
  }

  datatype ReleaseChannel = Stable | Beta | Alpha {

    /** `Default for ReleaseChannel`. */
    static function Default(): (r: ReleaseChannel)
      ensures r.Rank() == 0
    {
      Stable
    }

    /** `Display for ReleaseChannel`. */
    function ToString(): (r: string)
      ensures |r| > 0
    {
      match this
      case Stable => "Stable"
      case Beta => "Beta"
      case Alpha => "Alpha"
    }

    /** Position in the stability order: Stable is the most stable. */
    function Rank(): (r: nat)
      ensures r < 3
    {
      match this
      case Stable => 0
      case Beta => 1
      case Alpha => 2
    }
  }

  /** `ReleaseChannel::ALL`. */
  const AllReleaseChannels: seq<ReleaseChannel> := [Stable, Beta, Alpha]

  /** `ALL` lists every channel exactly once, from most to least stable. */
  lemma AllReleaseChannelsInRankOrder()
    ensures |AllReleaseChannels| == 3
    ensures forall i :: 0 <= i < |AllReleaseChannels| ==> AllReleaseChannels[i].Rank() == i
    ensures forall c: ReleaseChannel :: c in AllReleaseChannels
  {
    forall c: ReleaseChannel ensures c in AllReleaseChannels {
      assert AllReleaseChannels[c.Rank()] == c;
    }
  }

  datatype AddonState =
    | Ignored
    | Ajour(reason: Option<string>)
    | Downloading
    | Fingerprint
    | Unpacking
    | Updatable

  /** Identifiers for the three repositories; a Curse id is an unsigned integer. */
  datatype RepositoryIdentifiers = RepositoryIdentifiers(
    wowi: Option<string>,
    tukui: Option<string>,
    curse: Option<nat>)
  {
    static function Default(): (r: RepositoryIdentifiers)
      ensures r.wowi.None? && r.tukui.None? && r.curse.None?
    {
      RepositoryIdentifiers(None, None, None)
    }
  }

  datatype Repository = WowI | Tukui | Curse

  /** Metadata parsed from one add-on folder's `.toc` file; `id` is the folder name. */
  datatype AddonFolder = AddonFolder(
    id: string,
    title: string,
    path: string,
    author: Option<string>,
    notes: Option<string>,
    version: Option<string>,
    repositoryIdentifiers: RepositoryIdentifiers,
    dependencies: seq<string>,
    fingerprint: Option<nat>)
  {
    /** `AddonFolder::new`: the given fields, and no fingerprint yet. */
    static function New(
      id: string, title: string, path: string, author: Option<string>,
      notes: Option<string>, version: Option<string>,
      repositoryIdentifiers: RepositoryIdentifiers, dependencies: seq<string>): (r: AddonFolder)
      ensures r.fingerprint.None?
      ensures r.id == id && r.title == title && r.path == path && r.author == author
      ensures r.notes == notes && r.version == version
      ensures r.repositoryIdentifiers == repositoryIdentifiers && r.dependencies == dependencies
    {
      AddonFolder(id, title, path, author, notes, version, repositoryIdentifiers, dependencies, None)
    }
  }

  /** What one repository reports about an add-on. */
  datatype RepositoryMetadata = RepositoryMetadata(
    version: Option<string>,
    title: Option<string>,
    author: Option<string>,
    notes: Option<string>,
    websiteUrl: Option<string>,
    gameVersion: Option<string>,
    fileId: Option<int>,
    remotePackages: map<ReleaseChannel, RemotePackage>)
  {
    /** `RepositoryMetadata::empty`: nothing known. */
    static function Empty(): (r: RepositoryMetadata)
      ensures r.version.None? && r.title.None? && r.author.None? && r.notes.None?
      ensures r.websiteUrl.None? && r.gameVersion.None? && r.fileId.None?
      ensures r.remotePackages == map[]
    {
      RepositoryMetadata(None, None, None, None, None, None, None, map[])
    }
  }

  /** The fields of a Tukui package response that the core reads; `lastUpdate`
      is the parsed `lastupdate` string. */
  datatype TukuiPackage = TukuiPackage(
    version: string,
    url: string,
    lastUpdate: Option<DateTime>,
    webUrl: string,
    patch: Option<string>)

  datatype CurseModule = CurseModule(folderName: string)

  /** The fields of a Curse file record that the core reads; `fileDate` is
      the parsed RFC 3339 `file_date` string. */
  datatype CurseFile = CurseFile(
    id: int,
    displayName: string,
    downloadUrl: string,
    fileDate: Option<DateTime>,
    isAlternate: bool,
    releaseType: int,
    gameVersion: seq<string>,
    gameVersionFlavor: Option<string>,
    modules: seq<CurseModule>)

  /** A fingerprint match: the matched file and the latest files of the project. */
  datatype AddonFingerprintInfo = AddonFingerprintInfo(file: CurseFile, latestFiles: seq<CurseFile>)

  function Lookup(packages: map<ReleaseChannel, RemotePackage>, channel: ReleaseChannel): (r: Option<RemotePackage>)
    ensures r.Some? <==> channel in packages
    ensures r.Some? ==> r.value == packages[channel]
  {
    if channel in packages then Some(packages[channel]) else None
  }

  // ---------------------------------------------------------------------
  // Tukui construction: primary folder and the folders that belong to it
  // ---------------------------------------------------------------------

  /** The index of the folder `from_tukui_package` takes as primary: the
      first one that declares the Tukui project id. */
  function TukuiPrimaryFolder(tukuiId: string, folders: seq<AddonFolder>): (k: nat)
    requires exists i :: 0 <= i < |folders| && folders[i].repositoryIdentifiers.tukui == Some(tukuiId)
    ensures k < |folders| && folders[k].repositoryIdentifiers.tukui == Some(tukuiId)
    ensures forall j :: 0 <= j < k ==> folders[j].repositoryIdentifiers.tukui != Some(tukuiId)
  {
    Find(folders, (f: AddonFolder) => f.repositoryIdentifiers.tukui == Some(tukuiId)).value
  }

  /** A folder belongs to the Tukui add-on whose primary folder is `primary`
      when it is that folder or depends on it. */
  function BelongsToPrimary(primary: string): AddonFolder -> bool
  {
    (f: AddonFolder) => f.id == primary || primary in f.dependencies
  }

  /** The folders of a Tukui add-on, in input order. */
  function TukuiFolders(folders: seq<AddonFolder>, primary: string): (r: seq<AddonFolder>)
    ensures forall i :: 0 <= i < |r| ==> r[i] in folders && (r[i].id == primary || primary in r[i].dependencies)
    ensures forall i :: 0 <= i < |folders| && (folders[i].id == primary || primary in folders[i].dependencies) ==> folders[i] in r
  {
    Filter(folders, BelongsToPrimary(primary))
  }

  /** The repository metadata `from_tukui_package` records: one package,
      filed under Stable, without a file id; the web URL and the patch. */
  function TukuiMetadata(package: TukuiPackage): (r: RepositoryMetadata)
    ensures r.remotePackages.Keys == {Stable}
    ensures r.remotePackages[Stable] == RemotePackage(package.version, package.url, package.lastUpdate, None)
    ensures r.websiteUrl == Some(package.webUrl) && r.gameVersion == package.patch
    ensures r.version.None? && r.title.None? && r.author.None? && r.notes.None? && r.fileId.None?
  {
    RepositoryMetadata.Empty().(
      websiteUrl := Some(package.webUrl),
      gameVersion := package.patch,
      remotePackages := map[Stable := RemotePackage(package.version, package.url, package.lastUpdate, None)])
  }

  // ---------------------------------------------------------------------
  // Curse construction: packages, primary folder and module folders
  // ---------------------------------------------------------------------

  /** Curse release types: 1 is stable, 2 beta, 3 alpha; any other code has no channel. */
  function ChannelOfReleaseType(releaseType: int): (r: Option<ReleaseChannel>)
    ensures r == Some(Stable) <==> releaseType == 1
    ensures r == Some(Beta) <==> releaseType == 2
    ensures r == Some(Alpha) <==> releaseType == 3
  {
    if releaseType == 1 then Some(Stable)
    else if releaseType == 2 then Some(Beta)
    else if releaseType == 3 then Some(Alpha)
    else None
  }

  /** The channel a latest file is filed under: none when it is an alternate
      file or targets another flavour. */
  function FileChannel(file: CurseFile, flavorTag: string): (r: Option<ReleaseChannel>)
    ensures r.Some? ==> !file.isAlternate && file.gameVersionFlavor == Some(flavorTag)
    ensures !file.isAlternate && file.gameVersionFlavor == Some(flavorTag) ==> r == ChannelOfReleaseType(file.releaseType)
  {
    if !file.isAlternate && file.gameVersionFlavor == Some(flavorTag) then ChannelOfReleaseType(file.releaseType)
    else None
  }

  /** The package a Curse file becomes. */
  function CursePackage(file: CurseFile): (r: RemotePackage)
    ensures r.fileId == Some(file.id) && r.version == file.displayName
    ensures r.downloadUrl == file.downloadUrl && r.dateTime == file.fileDate
  {
    RemotePackage(file.displayName, file.downloadUrl, file.fileDate, Some(file.id))
  }

  /** `i` is the last of `files` filed under `channel`. */
  ghost predicate LastFileFor(files: seq<CurseFile>, flavorTag: string, channel: ReleaseChannel, i: int)
  {
    0 <= i < |files| && FileChannel(files[i], flavorTag) == Some(channel)
    && forall j :: i < j < |files| ==> FileChannel(files[j], flavorTag) != Some(channel)
  }

  /** The map the loop over `latest_files` builds, one file at a time: a
      qualifying file is inserted under its channel, replacing what was there. */
  function CursePackages(files: seq<CurseFile>, flavorTag: string): (r: map<ReleaseChannel, RemotePackage>)
    ensures forall ch :: ch in r ==> r[ch].fileId.Some?
    decreases |files|
  {
    if |files| == 0 then map[]
    else
      var last := files[|files| - 1];
      var m := CursePackages(files[..|files| - 1], flavorTag);
      match FileChannel(last, flavorTag)
      case None => m
      case Some(ch) => m[ch := CursePackage(last)]
  }

  /** A channel has a package iff some qualifying latest file maps to it. */
  lemma {:induction false} CursePackagesChannels(files: seq<CurseFile>, flavorTag: string, channel: ReleaseChannel)
    ensures channel in CursePackages(files, flavorTag)
            <==> exists i :: 0 <= i < |files| && FileChannel(files[i], flavorTag) == Some(channel)
    decreases |files|
  {
    if |files| > 0 {
      var init := files[..|files| - 1];
      CursePackagesChannels(init, flavorTag, channel);
      if exists i :: 0 <= i < |init| && FileChannel(init[i], flavorTag) == Some(channel) {
        var i :| 0 <= i < |init| && FileChannel(init[i], flavorTag) == Some(channel);
        assert files[i] == init[i];
      }
      forall i | 0 <= i < |files| - 1 ensures files[i] == init[i] { }
    }
  }

  /** The package stored under a channel is that of the last qualifying file
      for the channel: a later file overwrites an earlier one. */
  lemma {:induction false} CursePackagesLastWins(files: seq<CurseFile>, flavorTag: string, channel: ReleaseChannel)
    requires channel in CursePackages(files, flavorTag)
    ensures exists i :: LastFileFor(files, flavorTag, channel, i)
                        && CursePackages(files, flavorTag)[channel] == CursePackage(files[i])
    decreases |files|
  {
    var n := |files| - 1;
    var init := files[..n];
    if FileChannel(files[n], flavorTag) == Some(channel) {
      assert LastFileFor(files, flavorTag, channel, n);
    } else {
      CursePackagesLastWins(init, flavorTag, channel);
      var i :| LastFileFor(init, flavorTag, channel, i)
               && CursePackages(init, flavorTag)[channel] == CursePackage(init[i]);
      assert files[i] == init[i];
      forall j | i < j < |files| ensures FileChannel(files[j], flavorTag) != Some(channel) {
        if j < n { assert files[j] == init[j]; }
      }
      assert LastFileFor(files, flavorTag, channel, i);
    }
  }

  /** The loop of `from_curse_fingerprint_info` over the latest files. */
  method CollectRemotePackages(latestFiles: seq<CurseFile>, flavorTag: string)
    returns (remotePackages: map<ReleaseChannel, RemotePackage>)
    ensures remotePackages == CursePackages(latestFiles, flavorTag)
  {
    remotePackages := map[];
    for i := 0 to |latestFiles|
      invariant remotePackages == CursePackages(latestFiles[..i], flavorTag)
    {
      var file := latestFiles[i];
      if !file.isAlternate && file.gameVersionFlavor == Some(flavorTag) {
        var package := RemotePackage(file.displayName, file.downloadUrl, file.fileDate, Some(file.id));
        match file.releaseType {
          case 1 => remotePackages := remotePackages[Stable := package];
          case 2 => remotePackages := remotePackages[Beta := package];
          case 3 => remotePackages := remotePackages[Alpha := package];
          case _ =>
        }
      }
      assert latestFiles[..i + 1][..i] == latestFiles[..i];
    }
    assert latestFiles[..|latestFiles|] == latestFiles;
  }

  /** The repository metadata `from_curse_fingerprint_info` records: the
      packages of the latest files, and version, file id and first game
      version of the matched file. */
  function CurseMetadata(info: AddonFingerprintInfo, flavorTag: string): (r: RepositoryMetadata)
    ensures r.remotePackages == CursePackages(info.latestFiles, flavorTag)
    ensures r.version == Some(info.file.displayName) && r.fileId == Some(info.file.id)
    ensures |info.file.gameVersion| > 0 ==> r.gameVersion == Some(info.file.gameVersion[0])
    ensures |info.file.gameVersion| == 0 ==> r.gameVersion.None?
    ensures r.title.None? && r.author.None? && r.notes.None? && r.websiteUrl.None?
  {
    RepositoryMetadata.Empty().(
      version := Some(info.file.displayName),
      fileId := Some(info.file.id),
      gameVersion := if |info.file.gameVersion| > 0 then Some(info.file.gameVersion[0]) else None,
      remotePackages := CursePackages(info.latestFiles, flavorTag))
  }

  /** `info.file.modules.iter().any(|m| m.foldername == folder_name)`. */
  function NamesModule(modules: seq<CurseModule>, folderName: string): (r: bool)
    ensures r <==> exists j :: 0 <= j < |modules| && modules[j].folderName == folderName
  {
    Any(modules, (m: CurseModule) => m.folderName == folderName)
  }

  /** First tier of the Curse primary-folder rule: the folder declares the
      Curse id and is one of the modules. */
  predicate ClaimsCurseId(f: AddonFolder, curseId: nat, modules: seq<CurseModule>)
  {
    f.repositoryIdentifiers.curse == Some(curseId) && NamesModule(modules, f.id)
  }

  /** The index of the folder `from_curse_fingerprint_info` takes as primary:
      the first folder that declares the Curse id and is a module, or, when
      there is none, the first folder that is a module. */
  function CursePrimaryFolder(curseId: nat, modules: seq<CurseModule>, folders: seq<AddonFolder>): (k: nat)
    requires exists i :: 0 <= i < |folders| && NamesModule(modules, folders[i].id)
    ensures k < |folders| && NamesModule(modules, folders[k].id)
    ensures (exists i :: 0 <= i < |folders| && ClaimsCurseId(folders[i], curseId, modules)) ==>
      ClaimsCurseId(folders[k], curseId, modules) && forall j :: 0 <= j < k ==> !ClaimsCurseId(folders[j], curseId, modules)
    ensures (forall i :: 0 <= i < |folders| ==> !ClaimsCurseId(folders[i], curseId, modules)) ==>
      forall j :: 0 <= j < k ==> !NamesModule(modules, folders[j].id)
  {
    match Find(folders, (f: AddonFolder) => ClaimsCurseId(f, curseId, modules))
    case Some(k) => k
    case None => Find(folders, IsModuleFolder(modules)).value
  }

  function IsModuleFolder(modules: seq<CurseModule>): AddonFolder -> bool
  {
    (f: AddonFolder) => NamesModule(modules, f.id)
  }

  /** The folders of a Curse add-on: those named in the modules, in input order. */
  function CurseFolders(modules: seq<CurseModule>, folders: seq<AddonFolder>): (r: seq<AddonFolder>)
    ensures forall i :: 0 <= i < |r| ==> r[i] in folders && NamesModule(modules, r[i].id)
    ensures forall i :: 0 <= i < |folders| && NamesModule(modules, folders[i].id) ==> folders[i] in r
  {
    Filter(folders, IsModuleFolder(modules))
  }

  // ---------------------------------------------------------------------
  // Version comparison
  // ---------------------------------------------------------------------

  /** The heuristic of `is_updatable_by_version_comparison` on two version
      strings: an update exists iff the remote digits do not occur in the
      local digits. */
  function VersionDigitsDiffer(localVersion: string, remoteVersion: string): (r: bool)
    ensures r <==> !DigitsOccur(localVersion, remoteVersion)
  {
    var srv := StripNonDigits(remoteVersion);
    var slv := StripNonDigits(localVersion);
    if srv.Some? && slv.Some? then !Contains(slv.value, srv.value) else false
  }

  /** The ASCII digits of `remoteVersion` occur, contiguously, among the
      ASCII digits of `localVersion`. */
  ghost predicate DigitsOccur(localVersion: string, remoteVersion: string)
  {
    exists k :: OccursAt(Digits(localVersion), Digits(remoteVersion), k)
  }

  /** Among the selected channel and the channels more stable than it,
      `channel` holds the package with the greatest file id (`None` below
      every id), a tie going to the less stable channel. */
  ghost predicate Freshest(packages: map<ReleaseChannel, RemotePackage>, selected: ReleaseChannel,
                           channel: ReleaseChannel)
  {
    && selected in packages && channel in packages && channel.Rank() <= selected.Rank()
    && (forall c :: c in packages && c.Rank() < channel.Rank() ==>
          !OptionGreater(packages[c].fileId, packages[channel].fileId))
    && (forall c :: c in packages && channel.Rank() < c.Rank() <= selected.Rank() ==>
          OptionGreater(packages[channel].fileId, packages[c].fileId))
  }

  /** `stable_newer_than_beta` and its siblings: both packages exist and the
      first has the greater file id, with `None` below every `Some`. */
  function NewerThan(a: Option<RemotePackage>, b: Option<RemotePackage>): (r: bool)
    ensures r <==> a.Some? && b.Some? && a.value.fileId.Some?
                   && (b.value.fileId.None? || a.value.fileId.value > b.value.fileId.value)
  {
    match (a, b)
    case (Some(p), Some(q)) => OptionGreater(p.fileId, q.fileId)
    case _ => false
  }

  /** The logic of `relevant_release_package`: the selected channel's
      package, unless a more stable channel holds one with a greater file id.
      Nothing is offered when the selected channel has no package. */
  function SelectPackage(packages: map<ReleaseChannel, RemotePackage>, selected: ReleaseChannel)
    : (r: Option<RemotePackage>)
    ensures selected !in packages ==> r.None?
    ensures selected in packages ==> exists ch :: Freshest(packages, selected, ch) && r == Some(packages[ch])
  {
    var stablePackage := Lookup(packages, Stable);
    var betaPackage := Lookup(packages, Beta);
    var alphaPackage := Lookup(packages, Alpha);

    var stableNewerThanBeta := NewerThan(stablePackage, betaPackage);
    var stableNewerThanAlpha := NewerThan(stablePackage, alphaPackage);
    var betaNewerThanAlpha := NewerThan(betaPackage, alphaPackage);

    match selected
    case Stable =>
      assert Stable in packages ==> Freshest(packages, Stable, Stable);
      stablePackage
    case Beta =>
      if stableNewerThanBeta then
        assert Freshest(packages, Beta, Stable);
        stablePackage
      else
        assert Beta in packages ==> Freshest(packages, Beta, Beta);
        betaPackage
    case Alpha =>
      if betaNewerThanAlpha then
        if stableNewerThanBeta then
          assert Freshest(packages, Alpha, Stable);
          stablePackage
        else
          assert Freshest(packages, Alpha, Beta);
          betaPackage
      else if stableNewerThanAlpha then
        assert Freshest(packages, Alpha, Stable);
        stablePackage
      else
        assert Alpha in packages ==> Freshest(packages, Alpha, Alpha);
        alphaPackage
  }

  // ---------------------------------------------------------------------
  // The logical add-on
  // ---------------------------------------------------------------------

  class Addon {
    /** The canonical identity: the id of the primary folder. */
    var primaryFolderId: string
    var folders: seq<AddonFolder>
    var state: AddonState
    var releaseChannel: ReleaseChannel
    var repositoryIdentifiers: RepositoryIdentifiers
    var activeRepository: Option<Repository>
    var repositoryMetadata: RepositoryMetadata

    /** `Addon::empty`. */
    constructor Empty(primaryFolderId: string)
      ensures this.primaryFolderId == primaryFolderId && folders == []
      ensures state == Ajour(None) && releaseChannel == ReleaseChannel.Default()
      ensures repositoryIdentifiers == RepositoryIdentifiers.Default() && activeRepository == None
      ensures repositoryMetadata == RepositoryMetadata.Empty()
    {
      this.primaryFolderId := primaryFolderId;
      folders := [];
      state := Ajour(None);
      releaseChannel := ReleaseChannel.Default();
      repositoryIdentifiers := RepositoryIdentifiers.Default();
      activeRepository := None;
      repositoryMetadata := RepositoryMetadata.Empty();
    }

    /** `Addon::empty` followed by the field writes both `from_*`
        constructors make: the add-on linked to `repository`. */
    constructor Linked(primaryFolderId: string, folders: seq<AddonFolder>, repository: Repository,
                       repositoryIdentifiers: RepositoryIdentifiers, repositoryMetadata: RepositoryMetadata)
      ensures this.primaryFolderId == primaryFolderId && this.folders == folders
      ensures state == Ajour(None) && releaseChannel == ReleaseChannel.Default()
      ensures this.repositoryIdentifiers == repositoryIdentifiers && activeRepository == Some(repository)
      ensures this.repositoryMetadata == repositoryMetadata
    {
      this.primaryFolderId := primaryFolderId;
      this.folders := folders;
      state := Ajour(None);
      releaseChannel := ReleaseChannel.Default();
      this.repositoryIdentifiers := repositoryIdentifiers;
      activeRepository := Some(repository);
      this.repositoryMetadata := repositoryMetadata;
    }

    /** `Addon::from_tukui_package`. The source unwraps the primary-folder
        lookup: its callers pass only Tukui ids some folder declares. */
    static method FromTukuiPackage(tukuiId: string, addonFolders: seq<AddonFolder>, package: TukuiPackage)
      returns (addon: Addon)
      requires exists i :: 0 <= i < |addonFolders| && addonFolders[i].repositoryIdentifiers.tukui == Some(tukuiId)
      ensures fresh(addon)
      ensures addon.repositoryMetadata == TukuiMetadata(package)
      ensures addon.primaryFolderId == addonFolders[TukuiPrimaryFolder(tukuiId, addonFolders)].id
      ensures addon.folders == TukuiFolders(addonFolders, addon.primaryFolderId)
      ensures addon.PrimaryAddonFolder().Some?
      ensures addon.activeRepository == Some(Tukui)
      ensures addon.repositoryIdentifiers == RepositoryIdentifiers.Default().(tukui := Some(tukuiId))
      ensures addon.RepositoryId() == Some(tukuiId) && addon.TukuiId() == Some(tukuiId)
      ensures addon.state == Ajour(None) && addon.releaseChannel == Stable
    {
      var remotePackages: map<ReleaseChannel, RemotePackage> := map[];
      var remote := RemotePackage(package.version, package.url, package.lastUpdate, None);
      // Tukui has no release channels: its one package is filed as stable.
      remotePackages := remotePackages[Stable := remote];

      var metadata := RepositoryMetadata.Empty();
      metadata := metadata.(websiteUrl := Some(package.webUrl));
      metadata := metadata.(gameVersion := package.patch);
      metadata := metadata.(remotePackages := remotePackages);

      var k := TukuiPrimaryFolder(tukuiId, addonFolders);
      var primaryFolderId := addonFolders[k].id;

      var folders := TukuiFolders(addonFolders, primaryFolderId);

      addon := new Addon.Linked(primaryFolderId, folders, Tukui,
                                RepositoryIdentifiers.Default().(tukui := Some(tukuiId)), metadata);
      addon.PrimaryPresent(addonFolders[k]);
      addon.TukuiRepositoryId(tukuiId);
    }

    /** `Addon::from_curse_fingerprint_info`. The source unwraps the
        fallback primary-folder lookup: a fingerprint match always names a
        local folder among its modules. */
    static method FromCurseFingerprintInfo(curseId: nat, info: AddonFingerprintInfo, flavor: string,
                                           addonFolders: seq<AddonFolder>)
      returns (addon: Addon)
      requires exists i :: 0 <= i < |addonFolders| && NamesModule(info.file.modules, addonFolders[i].id)
      ensures fresh(addon)
      ensures addon.repositoryMetadata == CurseMetadata(info, "wow_" + flavor)
      ensures addon.primaryFolderId == addonFolders[CursePrimaryFolder(curseId, info.file.modules, addonFolders)].id
      ensures addon.folders == CurseFolders(info.file.modules, addonFolders)
      ensures addon.PrimaryAddonFolder().Some?
      ensures addon.activeRepository == Some(Curse)
      ensures addon.repositoryIdentifiers == RepositoryIdentifiers.Default().(curse := Some(curseId))
      ensures addon.RepositoryId() == Some(NatToString(curseId)) && addon.CurseId() == Some(curseId)
      ensures addon.state == Ajour(None) && addon.releaseChannel == Stable
    {
      var remotePackages := CollectRemotePackages(info.latestFiles, "wow_" + flavor);

      var metadata := RepositoryMetadata.Empty();
      metadata := metadata.(version := Some(info.file.displayName));
      metadata := metadata.(fileId := Some(info.file.id));
      metadata := metadata.(gameVersion := if |info.file.gameVersion| > 0 then Some(info.file.gameVersion[0]) else None);
      metadata := metadata.(remotePackages := remotePackages);

      var k := CursePrimaryFolder(curseId, info.file.modules, addonFolders);
      var primaryFolderId := addonFolders[k].id;
      var folders := CurseFolders(info.file.modules, addonFolders);

      addon := new Addon.Linked(primaryFolderId, folders, Curse,
                                RepositoryIdentifiers.Default().(curse := Some(curseId)), metadata);
      addon.PrimaryPresent(addonFolders[k]);
      addon.CurseRepositoryId(curseId);
    }

    /** `i` is the first index of `folders` holding the primary folder id. */
    ghost predicate PrimaryAt(i: int)
      reads this
    {
      0 <= i < |folders| && folders[i].id == primaryFolderId
      && forall j :: 0 <= j < i ==> folders[j].id != primaryFolderId
    }

    /** No folder of the add-on carries the primary folder id. */
    ghost predicate NoPrimaryFolder()
      reads this
    {
      forall i :: 0 <= i < |folders| ==> folders[i].id != primaryFolderId
    }

    /** `primary_addon_folder`: the first folder whose id is the primary folder id. */
    function PrimaryAddonFolder(): (r: Option<AddonFolder>)
      reads this
      ensures forall i :: PrimaryAt(i) ==> r == Some(folders[i])
      ensures r.None? <==> NoPrimaryFolder()
      ensures r.Some? ==> r.value in folders && r.value.id == primaryFolderId
    {
      var id := primaryFolderId;
      match Find(folders, (f: AddonFolder) => f.id == id)
      case Some(k) => Some(folders[k])
      case None => None
    }

    /** A folder in `folders` with the primary id makes the lookup succeed. */
    lemma PrimaryPresent(f: AddonFolder)
      requires f in folders && f.id == primaryFolderId
      ensures PrimaryAddonFolder().Some?
    {
    }

    /** An add-on linked to Tukui under id `tukuiId` reports that id. */
    lemma TukuiRepositoryId(tukuiId: string)
      requires activeRepository == Some(Tukui) && repositoryIdentifiers.tukui == Some(tukuiId)
      ensures RepositoryId() == Some(tukuiId) && TukuiId() == Some(tukuiId)
    {
    }

    /** An add-on linked to Curse under id `curseId` reports that id, in decimal. */
    lemma CurseRepositoryId(curseId: nat)
      requires activeRepository == Some(Curse) && repositoryIdentifiers.curse == Some(curseId)
      ensures RepositoryId() == Some(NatToString(curseId)) && CurseId() == Some(curseId)
    {
    }

    /** `version`: the repository's version, else the primary folder's. */
    function Version(): (r: Option<string>)
      reads this
      ensures repositoryMetadata.version.Some? ==> r == repositoryMetadata.version
      ensures forall i :: PrimaryAt(i) && repositoryMetadata.version.None? ==> r == folders[i].version
      ensures NoPrimaryFolder() ==> r == repositoryMetadata.version
    {
      if repositoryMetadata.version.Some? then repositoryMetadata.version
      else
        match PrimaryAddonFolder()
        case Some(f) => f.version
        case None => None
    }

    /** `set_version`. */
    method SetVersion(version: string)
      modifies this`repositoryMetadata
      ensures repositoryMetadata == old(repositoryMetadata).(version := Some(version))
      ensures Version() == Some(version)
    {
      repositoryMetadata := repositoryMetadata.(version := Some(version));
    }

    /** `title`: the repository's title, else the primary folder's, else the
        primary folder id. */
    function Title(): (r: string)
      reads this
      ensures repositoryMetadata.title.Some? ==> r == repositoryMetadata.title.value
      ensures forall i :: PrimaryAt(i) && repositoryMetadata.title.None? ==> r == folders[i].title
      ensures NoPrimaryFolder() && repositoryMetadata.title.None? ==> r == primaryFolderId
    {
      var folderTitle := match PrimaryAddonFolder() case Some(f) => f.title case None => primaryFolderId;
      repositoryMetadata.title.UnwrapOr(folderTitle)
    }

    /** `author`: the repository's author, else the primary folder's. */
    function Author(): (r: Option<string>)
      reads this
      ensures repositoryMetadata.author.Some? ==> r == repositoryMetadata.author
      ensures forall i :: PrimaryAt(i) && repositoryMetadata.author.None? ==> r == folders[i].author
      ensures NoPrimaryFolder() ==> r == repositoryMetadata.author
    {
      var folderAuthor := match PrimaryAddonFolder() case Some(f) => f.author case None => None;
      Or(repositoryMetadata.author, folderAuthor)
    }

    /** `game_version`: repository only. */
    function GameVersion(): (r: Option<string>)
      reads this
      ensures r == repositoryMetadata.gameVersion
    {
      repositoryMetadata.gameVersion
    }

    /** `notes`: repository only, there is no folder fallback. */
    function Notes(): (r: Option<string>)
      reads this
      ensures r == repositoryMetadata.notes
    {
      repositoryMetadata.notes
    }

    /** `website_url`: repository only. */
    function WebsiteUrl(): (r: Option<string>)
      reads this
      ensures r == repositoryMetadata.websiteUrl
    {
      repositoryMetadata.websiteUrl
    }

    /** `remote_packages`. */
    function RemotePackages(): (r: map<ReleaseChannel, RemotePackage>)
      reads this
      ensures r == repositoryMetadata.remotePackages
    {
      repositoryMetadata.remotePackages
    }

    /** `file_id`. */
    function FileId(): (r: Option<int>)
      reads this
      ensures r == repositoryMetadata.fileId
    {
      repositoryMetadata.fileId
    }

    /** `curse_id`: the add-on's Curse id, else the primary folder's. */
    function CurseId(): (r: Option<nat>)
      reads this
      ensures repositoryIdentifiers.curse.Some? ==> r == repositoryIdentifiers.curse
      ensures forall i :: PrimaryAt(i) && repositoryIdentifiers.curse.None? ==> r == folders[i].repositoryIdentifiers.curse
      ensures NoPrimaryFolder() ==> r == repositoryIdentifiers.curse
    {
      var folderCurse := match PrimaryAddonFolder() case Some(f) => f.repositoryIdentifiers.curse case None => None;
      Or(repositoryIdentifiers.curse, folderCurse)
    }

    /** `tukui_id`: the add-on's Tukui id, else the primary folder's. */
    function TukuiId(): (r: Option<string>)
      reads this
      ensures repositoryIdentifiers.tukui.Some? ==> r == repositoryIdentifiers.tukui
      ensures forall i :: PrimaryAt(i) && repositoryIdentifiers.tukui.None? ==> r == folders[i].repositoryIdentifiers.tukui
      ensures NoPrimaryFolder() ==> r == repositoryIdentifiers.tukui
    {
      var folderTukui := match PrimaryAddonFolder() case Some(f) => f.repositoryIdentifiers.tukui case None => None;
      Or(repositoryIdentifiers.tukui, folderTukui)
    }

    /** `wowi_id`: the add-on's WowInterface id, else the primary folder's. */
    function WowiId(): (r: Option<string>)
      reads this
      ensures repositoryIdentifiers.wowi.Some? ==> r == repositoryIdentifiers.wowi
      ensures forall i :: PrimaryAt(i) && repositoryIdentifiers.wowi.None? ==> r == folders[i].repositoryIdentifiers.wowi
      ensures NoPrimaryFolder() ==> r == repositoryIdentifiers.wowi
    {
      var folderWowi := match PrimaryAddonFolder() case Some(f) => f.repositoryIdentifiers.wowi case None => None;
      Or(repositoryIdentifiers.wowi, folderWowi)
    }

    /** `set_curse_id`. */
    method SetCurseId(curseId: nat)
      modifies this`repositoryIdentifiers
      ensures repositoryIdentifiers == old(repositoryIdentifiers).(curse := Some(curseId))
      ensures CurseId() == Some(curseId)
    {
      repositoryIdentifiers := repositoryIdentifiers.(curse := Some(curseId));
    }

    /** `set_tukui_id`. */
    method SetTukuiId(tukuiId: string)
      modifies this`repositoryIdentifiers
      ensures repositoryIdentifiers == old(repositoryIdentifiers).(tukui := Some(tukuiId))
      ensures TukuiId() == Some(tukuiId)
    {
      repositoryIdentifiers := repositoryIdentifiers.(tukui := Some(tukuiId));
    }

    /** `set_wowi_id`. */
    method SetWowiId(wowiId: string)
      modifies this`repositoryIdentifiers
      ensures repositoryIdentifiers == old(repositoryIdentifiers).(wowi := Some(wowiId))
      ensures WowiId() == Some(wowiId)
    {
      repositoryIdentifiers := repositoryIdentifiers.(wowi := Some(wowiId));
    }

    /** `repository_id`: the identifier the active repository knows the add-on by. */
    function RepositoryId(): (r: Option<string>)
      reads this
      ensures activeRepository.None? ==> r.None?
      ensures activeRepository == Some(Tukui) ==> r == repositoryIdentifiers.tukui
      ensures activeRepository == Some(WowI) ==> r == repositoryIdentifiers.wowi
      ensures activeRepository == Some(Curse) ==> (r.Some? <==> repositoryIdentifiers.curse.Some?)
      ensures activeRepository == Some(Curse) && r.Some? ==>
        (forall i :: 0 <= i < |r.value| ==> IsAsciiDigit(r.value[i]))
        && DecimalValue(r.value) == repositoryIdentifiers.curse.value
        && (|r.value| > 1 ==> r.value[0] != '0')
    {
      match activeRepository
      case Some(Curse) =>
        (match repositoryIdentifiers.curse case Some(i) => Some(NatToString(i)) case None => None)
      case Some(Tukui) => repositoryIdentifiers.tukui
      case Some(WowI) => repositoryIdentifiers.wowi
      case None => None
    }

    /** `is_ignored`: the primary folder id is on the ignore list. */
    function IsIgnored(ignored: Option<seq<string>>): (r: bool)
      reads this
      ensures r <==> ignored.Some? && primaryFolderId in ignored.value
    {
      match ignored
      case Some(list) =>
        var id := primaryFolderId;
        Any(list, (i: string) => i == id)
      case None => false
    }

    /** `is_updatable`: by file id when the add-on has one, else by the
        digit heuristic. */
    function IsUpdatable(remotePackage: RemotePackage): (r: bool)
      reads this
      ensures repositoryMetadata.fileId.Some? ==>
        (r <==> remotePackage.fileId.Some? && remotePackage.fileId.value > repositoryMetadata.fileId.value)
      ensures repositoryMetadata.fileId.None? ==>
        (r <==> Version().Some? && !DigitsOccur(Version().value, remotePackage.version))
    {
      if repositoryMetadata.fileId.None? then IsUpdatableByVersionComparison(remotePackage)
      else OptionGreater(remotePackage.fileId, repositoryMetadata.fileId)
    }

    /** `is_updatable_by_version_comparison`: with a known version, an
        update exists iff the remote digits do not occur in the local digits. */
    function IsUpdatableByVersionComparison(remotePackage: RemotePackage): (r: bool)
      reads this
      ensures Version().None? ==> !r
      ensures Version().Some? ==> (r <==> !DigitsOccur(Version().value, remotePackage.version))
    {
      match Version()
      case Some(version) => VersionDigitsDiffer(version, remotePackage.version)
      case None => false
    }

    /** `relevant_release_package`: the choice among the add-on's remote
        packages for its selected channel. */
    function RelevantReleasePackage(): (r: Option<RemotePackage>)
      reads this
      ensures releaseChannel !in repositoryMetadata.remotePackages ==> r.None?
      ensures releaseChannel in repositoryMetadata.remotePackages ==>
        exists ch :: Freshest(repositoryMetadata.remotePackages, releaseChannel, ch)
                     && r == Some(repositoryMetadata.remotePackages[ch])
    {
      SelectPackage(repositoryMetadata.remotePackages, releaseChannel)
    }

    /** `PartialEq for Addon`: identity is the primary folder id alone. */
    function Eq(other: Addon): (r: bool)
      reads this, other
      ensures r <==> primaryFolderId == other.primaryFolderId
    {
      primaryFolderId == other.primaryFolderId
    }

    /** `Ord for Addon`: by title, then by relevant package in reverse. */
    function Cmp(other: Addon): (r: Ordering)
      reads this, other
      ensures Title() != other.Title() ==> (r == Less <==> LexLess(Title(), other.Title()))
      ensures Title() != other.Title() ==> r != Equal
      ensures Title() == other.Title() ==>
        (r == Less <==> SortsAbove(RelevantReleasePackage(), other.RelevantReleasePackage()))
      ensures r == Equal <==> Title() == other.Title()
                              && SameVersion(RelevantReleasePackage(), other.RelevantReleasePackage())
    {
      var titleOrder := CompareStr(Title(), other.Title());
      var packageOrder := CompareOption(RelevantReleasePackage(), other.RelevantReleasePackage(), ComparePackages);
      CompareStrLessIff(Title(), other.Title());
      titleOrder.Then(packageOrder.Reverse())
    }
  }

  /** Among equal titles, an add-on whose relevant package is `p` sorts
      before one whose relevant package is `q`: `p` exists and `q` is absent
      or has a lexicographically smaller version. */
  ghost predicate SortsAbove(p: Option<RemotePackage>, q: Option<RemotePackage>)
  {
    p.Some? && (q.None? || LexLess(q.value.version, p.value.version))
  }

  /** Both packages absent, or both present with the same version string. */
  ghost predicate SameVersion(p: Option<RemotePackage>, q: Option<RemotePackage>)
  {
    (p.None? && q.None?) || (p.Some? && q.Some? && p.value.version == q.value.version)
  }
}
