/** Properties of the add-on model that relate several operations or pin
    down the documented behaviour on concrete inputs. */
module AddonProperties {
  import opened Options
  import opened Cmp
  import opened Strings
  import opened Utility
  import opened Addons

  // ---------------------------------------------------------------------
  // Ordering of remote packages and of add-ons
  // ---------------------------------------------------------------------

  /** Comparing optional packages is antisymmetric. */
  lemma ComparePackageOptionsAntisymmetric(p: Option<RemotePackage>, q: Option<RemotePackage>)
    ensures CompareOption(q, p, ComparePackages) == CompareOption(p, q, ComparePackages).Reverse()
  {
    if p.Some? && q.Some? {
      CompareStrAntisymmetric(p.value.version, q.value.version);
    }
  }

  /** Lexicographic order on strings is transitive. */
  lemma LexLessTransitive(a: string, b: string, c: string)
    requires LexLess(a, b) && LexLess(b, c)
    ensures LexLess(a, c)
  {
    CompareStrLessIff(a, b);
    CompareStrLessIff(b, c);
    CompareStrLessIff(a, c);
    CompareStrTransitive(a, b, c);
  }

  /** `Ord for Addon` is antisymmetric: swapping the operands reverses the answer. */
  lemma CmpAntisymmetric(a: Addon, b: Addon)
    ensures a.Cmp(b) == b.Cmp(a).Reverse()
  {
    CompareStrAntisymmetric(a.Title(), b.Title());
    ComparePackageOptionsAntisymmetric(a.RelevantReleasePackage(), b.RelevantReleasePackage());
  }

  /** Every add-on compares equal to itself. */
  lemma CmpReflexive(a: Addon)
    ensures a.Cmp(a) == Equal
  {
  }

  /** `Ord for Addon` is transitive. */
  lemma CmpTransitive(a: Addon, b: Addon, c: Addon)
    requires a.Cmp(b) == Less && b.Cmp(c) == Less
    ensures a.Cmp(c) == Less
  {
    var ta, tb, tc := a.Title(), b.Title(), c.Title();
    if ta != tb && tb != tc {
      LexLessTransitive(ta, tb, tc);
      CompareStrLessIff(ta, tc);
      CompareStrLessIff(tc, ta);
      if ta == tc {
        CompareStrLessIff(tb, ta);
        CompareStrAntisymmetric(ta, tb);
      }
    } else if ta == tb && tb == tc {
      var pa, pb, pc := a.RelevantReleasePackage(), b.RelevantReleasePackage(), c.RelevantReleasePackage();
      assert SortsAbove(pa, pb) && SortsAbove(pb, pc);
      if pc.Some? {
        LexLessTransitive(pc.value.version, pb.value.version, pa.value.version);
      }
    }
  }

  /** Equality under `Ord for Addon` is transitive. */
  lemma CmpEqualTransitive(a: Addon, b: Addon, c: Addon)
    requires a.Cmp(b) == Equal && b.Cmp(c) == Equal
    ensures a.Cmp(c) == Equal
  {
  }

  /** Among add-ons of the same title, the one whose relevant package has
      the lexicographically greater version string sorts first; file ids
      play no part. */
  lemma GreaterVersionSortsFirst(a: Addon, b: Addon)
    requires a.Title() == b.Title()
    requires a.RelevantReleasePackage().Some? && b.RelevantReleasePackage().Some?
    requires LexLess(b.RelevantReleasePackage().value.version, a.RelevantReleasePackage().value.version)
    ensures a.Cmp(b) == Less && b.Cmp(a) == Greater
  {
    CmpAntisymmetric(a, b);
  }

  /** Version strings are compared character by character, so "1.9" is
      greater than "1.10". */
  lemma VersionOrderIsTextual()
    ensures ComparePackages(RemotePackage("1.10", "", None, Some(2)), RemotePackage("1.9", "", None, Some(1))) == Less
  {
    assert DiffersFirstAt("1.10", "1.9", 2);
  }

  /** The ordering and the equality of add-ons disagree: `Eq` looks only at
      the primary folder id, `Cmp` only at title and package version. */
  lemma CmpIgnoresIdentity(a: Addon, b: Addon)
    requires a.Title() == b.Title()
    requires SameVersion(a.RelevantReleasePackage(), b.RelevantReleasePackage())
    requires a.primaryFolderId != b.primaryFolderId
    ensures a.Cmp(b) == Equal && !a.Eq(b)
  {
  }

  // ---------------------------------------------------------------------
  // Release-channel resolution
  // ---------------------------------------------------------------------

  /** At most one channel satisfies `Freshest`, so the chosen package is
      determined by the packages and the selected channel. */
  lemma FreshestUnique(packages: map<ReleaseChannel, RemotePackage>, selected: ReleaseChannel,
                       c1: ReleaseChannel, c2: ReleaseChannel)
    requires Freshest(packages, selected, c1) && Freshest(packages, selected, c2)
    ensures c1 == c2
  {
  }

  /** `SelectPackage` returns the package of the channel `Freshest` names. */
  lemma SelectsFreshest(packages: map<ReleaseChannel, RemotePackage>, selected: ReleaseChannel,
                        channel: ReleaseChannel)
    requires Freshest(packages, selected, channel)
    ensures SelectPackage(packages, selected) == Some(packages[channel])
  {
    var ch :| Freshest(packages, selected, ch) && SelectPackage(packages, selected) == Some(packages[ch]);
    FreshestUnique(packages, selected, ch, channel);
  }

  /** A Stable subscription always gets the Stable package. */
  lemma StableIsNeverOverridden(packages: map<ReleaseChannel, RemotePackage>)
    ensures SelectPackage(packages, Stable) == Lookup(packages, Stable)
  {
    if Stable in packages {
      SelectsFreshest(packages, Stable, Stable);
    }
  }

  /** A Beta subscription with only a Stable package gets nothing: the
      Stable package is not offered as a fallback. */
  lemma BetaWithOnlyStableIsNone(packages: map<ReleaseChannel, RemotePackage>)
    requires packages.Keys == {Stable}
    ensures SelectPackage(packages, Beta).None? && SelectPackage(packages, Alpha).None?
  {
  }

  /** A Beta subscription gets the Stable package when its file id is
      greater than the Beta package's, and the Beta package otherwise. */
  lemma BetaRule(packages: map<ReleaseChannel, RemotePackage>)
    requires Stable in packages && Beta in packages
    ensures OptionGreater(packages[Stable].fileId, packages[Beta].fileId) ==>
      SelectPackage(packages, Beta) == Some(packages[Stable])
    ensures !OptionGreater(packages[Stable].fileId, packages[Beta].fileId) ==>
      SelectPackage(packages, Beta) == Some(packages[Beta])
  {
    if OptionGreater(packages[Stable].fileId, packages[Beta].fileId) {
      SelectsFreshest(packages, Beta, Stable);
    } else {
      SelectsFreshest(packages, Beta, Beta);
    }
  }

  /** An Alpha subscription gets the Beta package when Beta's file id is
      greater than Alpha's and Stable's is not greater than Beta's. */
  lemma AlphaPrefersNewerBeta(packages: map<ReleaseChannel, RemotePackage>)
    requires Beta in packages && Alpha in packages
    requires OptionGreater(packages[Beta].fileId, packages[Alpha].fileId)
    requires Stable in packages ==> !OptionGreater(packages[Stable].fileId, packages[Beta].fileId)
    ensures SelectPackage(packages, Alpha) == Some(packages[Beta])
  {
    SelectsFreshest(packages, Alpha, Beta);
  }

  /** The chosen package never comes from a channel less stable than the
      selected one. */
  lemma SelectedIsAtLeastAsStable(packages: map<ReleaseChannel, RemotePackage>, selected: ReleaseChannel)
    requires SelectPackage(packages, selected).Some?
    ensures exists ch :: ch in packages && ch.Rank() <= selected.Rank()
                         && SelectPackage(packages, selected) == Some(packages[ch])
  {
    var ch :| Freshest(packages, selected, ch) && SelectPackage(packages, selected) == Some(packages[ch]);
  }

  // ---------------------------------------------------------------------
  // Update detection
  // ---------------------------------------------------------------------

  /** The same digit sequence on both sides never reports an update. */
  lemma SameDigitsNotUpdatable(localVersion: string, remoteVersion: string)
    requires Digits(localVersion) == Digits(remoteVersion)
    ensures !VersionDigitsDiffer(localVersion, remoteVersion)
  {
    ContainsSelf(Digits(localVersion));
  }

  /** A remote version without digits never reports an update. */
  lemma DigitlessRemoteNotUpdatable(localVersion: string, remoteVersion: string)
    requires Digits(remoteVersion) == []
    ensures !VersionDigitsDiffer(localVersion, remoteVersion)
  {
    ContainsEmpty(Digits(localVersion));
  }

  /** With a local file id, a remote package without one is never an update. */
  lemma RemoteWithoutFileIdNotUpdatable(a: Addon, remote: RemotePackage)
    requires a.repositoryMetadata.fileId.Some? && remote.fileId.None?
    ensures !a.IsUpdatable(remote)
  {
  }

  /** Without a file id the digit heuristic decides, and it needs a version. */
  lemma VersionlessNotUpdatable(a: Addon, remote: RemotePackage)
    requires a.repositoryMetadata.fileId.None? && a.Version().None?
    ensures !a.IsUpdatable(remote)
  {
  }

  /** "v1.2.3" and "1.2.3" carry the same digits: no update. */
  lemma PrefixedSameVersionNotUpdatable()
    ensures !VersionDigitsDiffer("v1.2.3", "1.2.3")
  {
    assert Digits("v1.2.3") == "123";
    assert Digits("1.2.3") == "123";
    SameDigitsNotUpdatable("v1.2.3", "1.2.3");
  }

  /** "1.2.3" against "1.2.4": the digits differ, so an update is reported. */
  lemma ChangedDigitNotContained()
    ensures VersionDigitsDiffer("1.2.3", "1.2.4")
  {
    DottedDigits();
    assert !Contains("123", "124");
  }

  /** The digits of the two dotted versions above. */
  lemma DottedDigits()
    ensures Digits("1.2.3") == "123" && Digits("1.2.4") == "124"
  {
    assert Digits("1.2.3") == "123";
    assert Digits("1.2.4") == "124";
  }

  /** The heuristic's blind spot: remote digits that occur inside the local
      ones hide an update ("1.23" locally, "2.3" remotely). */
  lemma ContainedDigitsHideUpdate()
    ensures !VersionDigitsDiffer("1.23", "2.3")
  {
    assert Digits("1.23") == "123";
    assert Digits("2.3") == "23";
    assert OccursAt("123", "23", 1);
  }

  // ---------------------------------------------------------------------
  // Repository-only attributes
  // ---------------------------------------------------------------------

  /** Game version, notes, website, file id and remote packages are read
      from the repository metadata alone: the folders never supply them. */
  lemma RepositoryOnlyAttributes(a: Addon, b: Addon)
    requires a.repositoryMetadata == b.repositoryMetadata
    ensures a.GameVersion() == b.GameVersion() && a.Notes() == b.Notes()
    ensures a.WebsiteUrl() == b.WebsiteUrl() && a.FileId() == b.FileId()
    ensures a.RemotePackages() == b.RemotePackages()
  {
  }

  /** The channel names are distinct. */
  lemma ReleaseChannelNamesDistinct(c1: ReleaseChannel, c2: ReleaseChannel)
    requires c1.ToString() == c2.ToString()
    ensures c1 == c2
  {
  }
}
