# Ajour add-on core, modelled in Dafny

Ajour manages World of Warcraft add-ons. On disk an add-on is a set of
folders, each with a `.toc` file (an `AddonFolder`). Ajour groups the folders
into one logical `Addon`. It links that add-on to a repository (Curse, Tukui
or WowInterface) and decides whether an update is available on the release
channel the user chose. This project models that core, `crates/core/src/addon.rs`:

- the value types: `RemotePackage`, `ReleaseChannel`, `AddonState`,
  `RepositoryIdentifiers`, `Repository`, `AddonFolder` and
  `RepositoryMetadata`;
- the `Addon` object: a Dafny class whose fields the setters update in place;
- the two constructors that build an add-on from a repository match. `Addon`
  is built from a Tukui package or from a Curse fingerprint match. The model
  covers the choice of primary folder, the grouping of folders and the
  per-channel package map, built by a loop over the latest files;
- the accessors that prefer repository metadata and fall back to the primary
  folder, and the ones that read repository metadata only;
- the update check: by file id, or by the digits heuristic when there is no id;
- release-channel resolution, which may replace the selected channel's
  package with a newer one from a more stable channel;
- add-on identity (`PartialEq`: primary folder id) and ordering (`Ord`: title,
  then the relevant package's version, reversed).

Modules:

- `Options`, `Cmp`, `Iter` and `Strings` model the Rust standard library
  behaviour the core relies on: `Option`, `Ordering`, `str::cmp`, `find`,
  `filter`, `any`, `str::contains` and `u32::to_string`.
- `Utility` models `strip_non_digits`.
- `Addons` holds the model itself.
- `AddonProperties` holds the lemmas that relate several operations.

Where the code and its documentation disagree, the model follows the code:

- `notes` never falls back to the primary folder: only version, title and
  author do.
- A Beta or Alpha subscription whose channel has no package gets nothing,
  even when a Stable package exists. The source's comment reads as if the
  more stable package would be offered.
- Ties in the add-on ordering are broken by the relevant package's version
  string, compared as text. File ids and dates play no part, so "1.9" sorts
  as newer than "1.10".
- The ordering and the equality disagree. Two add-ons with different
  primary folders but the same title and version compare `Equal` yet are
  not `==`.

## Model

| member | source | states |
|---|---|---|
| Options.Option.UnwrapOr | crates/core/src/addon.rs:404-412 | `unwrap_or`: the held value, else the default |
| Options.Or | crates/core/src/addon.rs:415-423 | `map_or(b, Some)`: the first option when present, else the second; present iff either is |
| Cmp.Ordering.Reverse | crates/core/src/addon.rs:624-632 | `Ordering::reverse` swaps Less and Greater and keeps Equal |
| Cmp.Ordering.Then | crates/core/src/addon.rs:624-632 | `then_with`: a decided first comparison wins; on Equal the tie-break decides |
| Cmp.CompareStr | crates/core/src/addon.rs:22-26 | `str::cmp`: Equal exactly when the strings are equal |
| Cmp.CompareStrLessIff | crates/core/src/addon.rs:22-26 | `str::cmp` answers Less exactly when the first string is a proper prefix of the second or is smaller at the first differing position |
| Cmp.CompareStrAntisymmetric | crates/core/src/addon.rs:22-26 | swapping the operands of `str::cmp` reverses the answer |
| Cmp.CompareStrTransitive | crates/core/src/addon.rs:22-26 | Less from `str::cmp` is transitive |
| Cmp.LexLessTail | crates/core/src/addon.rs:22-26 | a common first character does not change the lexicographic order |
| Cmp.CompareOption | crates/core/src/addon.rs:624-632 | `Option::cmp`: None below every Some; two Somes compare by their contents |
| Cmp.OptionGreater | crates/core/src/addon.rs:526-532 | `a > b` on `Option<i64>`: a is present, and b is absent or smaller |
| Iter.Find | crates/core/src/addon.rs:501-503 | `find`: the first index satisfying the predicate; none exactly when no element does |
| Iter.Filter | crates/core/src/addon.rs:283-288 | `filter`: every kept element is an input that satisfies the predicate, and every satisfying input is kept |
| Iter.FilterConcat | crates/core/src/addon.rs:283-288 | filtering a concatenation is concatenating the filtered parts, so input order is kept |
| Iter.Any | crates/core/src/addon.rs:518-523 | `any`: true exactly when some element satisfies the predicate |
| Strings.Contains | crates/core/src/addon.rs:536-547 | `str::contains`: true exactly when the needle occurs at some position of the haystack |
| Strings.ContainsStep | crates/core/src/addon.rs:536-547 | an occurrence that is not at the start lies in the tail |
| Strings.ContainsSelf | crates/core/src/addon.rs:536-547 | every string contains itself |
| Strings.ContainsEmpty | crates/core/src/addon.rs:536-547 | every string contains the empty string |
| Strings.DigitChar | crates/core/src/addon.rs:506-515 | a decimal digit value becomes the ASCII character for that digit |
| Strings.NatToString | crates/core/src/addon.rs:506-515 | `u32::to_string`: non-empty ASCII digits whose decimal value is the number, with no leading zero unless the string is the single digit of 0 |
| Strings.NatToStringInjective | crates/core/src/addon.rs:506-515 | distinct Curse ids give distinct repository ids |
| Utility.Digits | crates/core/src/addon.rs:536-547 | `strip_non_digits`: only ASCII digits, no longer than the input |
| Utility.DigitsMembers | crates/core/src/addon.rs:536-547 | a character survives stripping exactly when it is an ASCII digit of the input |
| Utility.DigitsIdempotent | crates/core/src/addon.rs:536-547 | stripping twice is stripping once |
| Utility.DigitsConcat | crates/core/src/addon.rs:536-547 | stripping a concatenation is concatenating the stripped parts |
| Utility.StripNonDigits | crates/core/src/addon.rs:536-547 | stripping always succeeds, with `Digits` of the input; what those digits are is stated by `Digits`, `DigitsMembers` and `DigitsConcat` |
| Addons.ComparePackages | crates/core/src/addon.rs:16-26 | remote packages are ordered by version string alone: Equal, Less and Greater exactly when the versions are equal, lexicographically smaller or larger |
| Addons.ReleaseChannel.Default | crates/core/src/addon.rs:43-47 | the default channel is the most stable one |
| Addons.ReleaseChannel.ToString | crates/core/src/addon.rs:49-61 | every channel has a non-empty display name |
| Addons.AllReleaseChannelsInRankOrder | crates/core/src/addon.rs:35-41 | `ReleaseChannel::ALL` lists each of the three channels exactly once, from most to least stable |
| Addons.RepositoryIdentifiers.Default | crates/core/src/addon.rs:72-78 | the default identifiers name no repository |
| Addons.AddonFolder.New | crates/core/src/addon.rs:105-127 | a new folder carries the given fields and no fingerprint |
| Addons.RepositoryMetadata.Empty | crates/core/src/addon.rs:149-153 | empty metadata knows nothing and has no packages |
| Addons.Lookup | crates/core/src/addon.rs:551-556 | `HashMap::get`: present exactly when the channel is a key, and then its package |
| Addons.TukuiPrimaryFolder | crates/core/src/addon.rs:268-274 | the primary folder of a Tukui add-on is the first folder declaring the Tukui id |
| Addons.TukuiFolders | crates/core/src/addon.rs:281-288 | a Tukui add-on's folders are exactly the inputs that are the primary folder or depend on it |
| Addons.TukuiMetadata | crates/core/src/addon.rs:236-266 | Tukui metadata holds one package, under Stable, with no file id, plus the web URL and the patch; nothing else |
| Addons.ChannelOfReleaseType | crates/core/src/addon.rs:326-337 | release type 1, 2 and 3 map to Stable, Beta and Alpha, and no other code maps to a channel |
| Addons.FileChannel | crates/core/src/addon.rs:310-338 | a file gets a channel only when it is not alternate and has the requested flavour, and such a file is filed under its release type's channel |
| Addons.CursePackage | crates/core/src/addon.rs:314-324 | a Curse file's package carries the file's display name as version, its download URL, its parsed date and its id as file id |
| Addons.CursePackages | crates/core/src/addon.rs:309-340 | the map the loop builds; every package in it carries a file id |
| Addons.CursePackagesChannels | crates/core/src/addon.rs:309-340 | a channel gets a package exactly when some qualifying latest file maps to it |
| Addons.CursePackagesLastWins | crates/core/src/addon.rs:309-340 | the package under a channel is that of the last qualifying file for the channel |
| Addons.CollectRemotePackages | crates/core/src/addon.rs:309-340 | the loop over the latest files builds the map that `CursePackages` describes |
| Addons.CurseMetadata | crates/core/src/addon.rs:342-350 | Curse metadata holds those packages and the matched file's name, id and first game version; nothing else |
| Addons.NamesModule | crates/core/src/addon.rs:355-358 | a folder is one of the match's modules exactly when some module has its name |
| Addons.CursePrimaryFolder | crates/core/src/addon.rs:352-368 | the primary folder is the first folder that declares the Curse id and is a module; when there is none, it is the first folder that is a module |
| Addons.CurseFolders | crates/core/src/addon.rs:375-380 | a Curse add-on's folders are exactly the inputs named among the modules |
| Addons.VersionDigitsDiffer | crates/core/src/addon.rs:536-547 | the digit heuristic reports an update exactly when the remote digits do not occur, contiguously, in the local digits |
| Addons.NewerThan | crates/core/src/addon.rs:557-577 | one package is newer than another when both exist and the first has the greater file id, with None below every id |
| Addons.SelectPackage | crates/core/src/addon.rs:551-605 | nothing when the selected channel has no package; otherwise the package of the channel, among the selected one and the more stable ones, with the greatest file id (None lowest), a tie going to the less stable channel |
| Addons.Addon.Empty | crates/core/src/addon.rs:200-228 | an empty add-on has the given primary id, no folders and no repository, and is on Stable in state `Ajour(None)` |
| Addons.Addon.Linked | crates/core/src/addon.rs:276-279 | an empty add-on whose repository, identifiers and metadata are then set |
| Addons.Addon.FromTukuiPackage | crates/core/src/addon.rs:231-291 | a new add-on linked to Tukui. It has the Tukui metadata, the first folder declaring the id as primary, and that folder with its dependants. The primary folder is found, and the repository id and Tukui id are the given id |
| Addons.Addon.FromCurseFingerprintInfo | crates/core/src/addon.rs:303-383 | a new add-on linked to Curse. It has the Curse metadata, the two-tier primary folder and the module folders. The primary folder is found, and the repository id is the Curse id in decimal |
| Addons.Addon.PrimaryAddonFolder | crates/core/src/addon.rs:501-503 | the first folder whose id is the primary folder id; none exactly when no folder has it |
| Addons.Addon.PrimaryPresent | crates/core/src/addon.rs:501-503 | a folder with the primary id among the folders makes the lookup succeed |
| Addons.Addon.TukuiRepositoryId | crates/core/src/addon.rs:506-515 | an add-on linked to Tukui reports its Tukui id as repository id and as Tukui id |
| Addons.Addon.CurseRepositoryId | crates/core/src/addon.rs:506-515 | an add-on linked to Curse reports its Curse id, in decimal, as repository id, and as Curse id |
| Addons.Addon.Version | crates/core/src/addon.rs:386-396 | the repository's version when known, else the primary folder's |
| Addons.Addon.SetVersion | crates/core/src/addon.rs:399-401 | only the metadata version changes, and the add-on then reports that version |
| Addons.Addon.Title | crates/core/src/addon.rs:404-412 | the repository's title, else the primary folder's, else the primary folder id |
| Addons.Addon.Author | crates/core/src/addon.rs:415-423 | the repository's author when known, else the primary folder's |
| Addons.Addon.GameVersion | crates/core/src/addon.rs:426-428 | the repository's game version, with no folder fallback |
| Addons.Addon.Notes | crates/core/src/addon.rs:431-433 | the repository's notes, with no folder fallback |
| Addons.Addon.WebsiteUrl | crates/core/src/addon.rs:436-438 | the repository's website URL, with no folder fallback |
| Addons.Addon.CurseId | crates/core/src/addon.rs:441-450 | the add-on's own Curse id, else the primary folder's |
| Addons.Addon.TukuiId | crates/core/src/addon.rs:453-463 | the add-on's own Tukui id, else the primary folder's |
| Addons.Addon.WowiId | crates/core/src/addon.rs:466-476 | the add-on's own WowInterface id, else the primary folder's |
| Addons.Addon.SetCurseId | crates/core/src/addon.rs:479-481 | only the Curse identifier changes, and the add-on then reports it |
| Addons.Addon.SetTukuiId | crates/core/src/addon.rs:484-486 | only the Tukui identifier changes, and the add-on then reports it |
| Addons.Addon.SetWowiId | crates/core/src/addon.rs:489-491 | only the WowInterface identifier changes, and the add-on then reports it |
| Addons.Addon.RemotePackages | crates/core/src/addon.rs:493-495 | the repository's per-channel packages |
| Addons.Addon.FileId | crates/core/src/addon.rs:497-499 | the repository's file id |
| Addons.Addon.RepositoryId | crates/core/src/addon.rs:506-515 | the active repository's identifier: none without a repository, the Tukui or WowInterface id as is, the Curse id as decimal digits of the same value with no leading zero |
| Addons.Addon.IsIgnored | crates/core/src/addon.rs:518-523 | ignored exactly when a list is given and holds the primary folder id |
| Addons.Addon.IsUpdatable | crates/core/src/addon.rs:526-532 | with a local file id: an update exactly when the remote file id is greater. Without one: exactly when a version is known and its digits do not contain the remote digits |
| Addons.Addon.IsUpdatableByVersionComparison | crates/core/src/addon.rs:536-547 | no version, no update; with a version, the digit heuristic decides |
| Addons.Addon.RelevantReleasePackage | crates/core/src/addon.rs:551-605 | nothing when the selected channel has no package; otherwise the package of the freshest channel among the selected one and the more stable ones |
| Addons.Addon.Eq | crates/core/src/addon.rs:608-612 | two add-ons are equal exactly when their primary folder ids are |
| Addons.Addon.Cmp | crates/core/src/addon.rs:624-632 | different titles order lexicographically and never compare Equal. Equal titles put the greater relevant version first, a present package before an absent one. Equal exactly when titles and relevant versions agree |
| AddonProperties.ComparePackageOptionsAntisymmetric | crates/core/src/addon.rs:624-632 | comparing optional packages is antisymmetric |
| AddonProperties.LexLessTransitive | crates/core/src/addon.rs:624-632 | lexicographic order is transitive |
| AddonProperties.CmpAntisymmetric | crates/core/src/addon.rs:624-632 | swapping two add-ons reverses their order |
| AddonProperties.CmpReflexive | crates/core/src/addon.rs:624-632 | every add-on compares Equal to itself |
| AddonProperties.CmpTransitive | crates/core/src/addon.rs:624-632 | Less among add-ons is transitive |
| AddonProperties.CmpEqualTransitive | crates/core/src/addon.rs:624-632 | Equal among add-ons is transitive |
| AddonProperties.GreaterVersionSortsFirst | crates/core/src/addon.rs:624-632 | among equal titles, the greater relevant version string sorts first, whatever the file ids |
| AddonProperties.VersionOrderIsTextual | crates/core/src/addon.rs:16-26 | a package versioned "1.10" orders below one versioned "1.9", despite its greater file id |
| AddonProperties.CmpIgnoresIdentity | crates/core/src/addon.rs:608-632 | two add-ons with different primary ids, but the same title and version, compare Equal yet are not equal |
| AddonProperties.FreshestUnique | crates/core/src/addon.rs:551-605 | at most one channel holds the freshest package, so the choice is determined |
| AddonProperties.SelectsFreshest | crates/core/src/addon.rs:551-605 | the selection returns the freshest channel's package |
| AddonProperties.StableIsNeverOverridden | crates/core/src/addon.rs:581 | a Stable subscription gets the Stable package, or nothing |
| AddonProperties.BetaWithOnlyStableIsNone | crates/core/src/addon.rs:582-603 | with only a Stable package, Beta and Alpha subscriptions get nothing |
| AddonProperties.BetaRule | crates/core/src/addon.rs:582-588 | Beta gets Stable's package when its file id is greater, else its own |
| AddonProperties.AlphaPrefersNewerBeta | crates/core/src/addon.rs:589-603 | Alpha gets Beta's package when Beta is newer than Alpha and Stable is not newer than Beta |
| AddonProperties.SelectedIsAtLeastAsStable | crates/core/src/addon.rs:551-605 | the chosen package never comes from a less stable channel than the selected one |
| AddonProperties.SameDigitsNotUpdatable | crates/core/src/addon.rs:536-547 | equal digit sequences never report an update |
| AddonProperties.DigitlessRemoteNotUpdatable | crates/core/src/addon.rs:536-547 | a remote version without digits never reports an update |
| AddonProperties.RemoteWithoutFileIdNotUpdatable | crates/core/src/addon.rs:526-532 | with a local file id, a remote package without one is never an update |
| AddonProperties.VersionlessNotUpdatable | crates/core/src/addon.rs:526-547 | without a file id or a version there is never an update |
| AddonProperties.PrefixedSameVersionNotUpdatable | crates/core/src/addon.rs:536-547 | "v1.2.3" locally and "1.2.3" remotely: no update |
| AddonProperties.ChangedDigitNotContained | crates/core/src/addon.rs:536-547 | "1.2.3" locally and "1.2.4" remotely: an update |
| AddonProperties.DottedDigits | crates/core/src/addon.rs:536-547 | the digits of "1.2.3" and "1.2.4" |
| AddonProperties.ContainedDigitsHideUpdate | crates/core/src/addon.rs:536-547 | "1.23" locally and "2.3" remotely: no update, because the remote digits occur inside the local ones |
| AddonProperties.RepositoryOnlyAttributes | crates/core/src/addon.rs:426-438 | game version, notes, website, file id and remote packages depend on the repository metadata alone |
| AddonProperties.ReleaseChannelNamesDistinct | crates/core/src/addon.rs:49-61 | different channels have different display names |

## Left out

- The file-system side of add-ons (`crates/core/src/fs/addon.rs`: installing and deleting folders) is not part of this model. It is I/O.
- `Addon::from_curse_package` is left out: its source body is `unimplemented!()`.
- Date parsing is taken as done by the caller. `TukuiPackage.lastUpdate` and `CurseFile.fileDate` arrive already parsed, as an optional number of seconds, because the formats belong to the chrono library.
- The GUI widget fields of `Addon` and the serde derives are left out. They have no behaviour in this core.
- `Flavor` is passed as its display string. The tag `wow_<flavour>` is built as in the source.
- Utility.Digits: `strip_non_digits` is not part of this model. It is assumed to keep the ASCII digits and always return `Some`. A regular expression over Unicode digits would also keep non-ASCII digits.
- Machine widths are not modelled. Curse ids (`u32`) are `nat` and file ids (`i64`) are `int`. The core does no arithmetic on them, so nothing wraps.
- "First folder" means first in the order the caller passes the folders. The source's comments assume that order is alphabetical; the sorting happens outside this core.
- `HashMap` is modelled as a Dafny `map`. Iteration order never matters in this core.
- Addons.Addon.FromTukuiPackage: the `unwrap` of the primary-folder lookup becomes a precondition that some folder declares the Tukui id, rather than a panic.
- Addons.Addon.FromCurseFingerprintInfo: the `unwrap` of the fallback lookup becomes a precondition that some folder is a module, rather than a panic.
- Addons.Addon.Linked: the source sets the fields of an empty add-on one after another. The model sets them in one constructor, with the same final state.
- Addons.ReleaseChannel.ToString: states only that each name is non-empty. The lemma `ReleaseChannelNamesDistinct` states that the names are distinct.
- Sharing and lifetimes (`&str` borrowed from the add-on) are not modelled: accessors return values.
