/** `VaInfo` (`service/vaInfo.ts`): what the VA-API driver reports, and the encode
    profiles derived from it. The call to `vainfo` and the regular expressions that read
    its output are not modelled: the header is given already parsed, and the body as the
    (profile, entrypoint) pairs in order of appearance. */
module VaapiInfo {
  import opened Wrappers
  import opened Text
  import opened Dict
  import opened Seqs

  /** The driver's profiles grouped by entrypoint, in order of first appearance. */
  type Profiles = seq<Entry<string, seq<string>>>

  datatype VaInfo = VaInfo(version: string, libvaVersion: string, driver: string, profiles: Profiles)

  /** The header lines: VA-API version, libva version and driver version. */
  datatype Header = Header(version: string, libvaVersion: string, driver: string)

  /** A body line: a profile and the entrypoint it supports. */
  datatype Support = Support(profile: string, entrypoint: string)

  /** `encodeProfiles`: the profile lists of the entrypoints whose name contains "Enc",
      concatenated in entrypoint order. */
  function EncodeProfiles(profiles: Profiles): (r: seq<string>)
    ensures profiles == [] ==> r == []
    decreases |profiles|
  {
    if profiles == [] then []
    else (if Contains(profiles[0].key, "Enc") then profiles[0].value else []) + EncodeProfiles(profiles[1..])
  }

  /** A profile is an encode profile exactly when some entrypoint with "Enc" in its name
      lists it. */
  lemma {:induction false} EncodeProfilesIff(profiles: Profiles, x: string)
    ensures x in EncodeProfiles(profiles) <==>
      exists i :: 0 <= i < |profiles| && Contains(profiles[i].key, "Enc") && x in profiles[i].value
    decreases |profiles|
  {
    if profiles != [] {
      EncodeProfilesIff(profiles[1..], x);
      if exists i :: 0 <= i < |profiles| - 1 && Contains(profiles[1..][i].key, "Enc") && x in profiles[1..][i].value {
        var i :| 0 <= i < |profiles| - 1 && Contains(profiles[1..][i].key, "Enc") && x in profiles[1..][i].value;
        assert profiles[i + 1] == profiles[1..][i];
      }
      if exists i :: 0 <= i < |profiles| && Contains(profiles[i].key, "Enc") && x in profiles[i].value {
        var i :| 0 <= i < |profiles| && Contains(profiles[i].key, "Enc") && x in profiles[i].value;
        if i > 0 {
          assert profiles[1..][i - 1] == profiles[i];
        }
      }
    }
  }

  /** An entrypoint without "Enc" in its name adds nothing to the encode profiles. */
  lemma {:induction false} EncodeProfilesAppend(profiles: Profiles, more: Profiles)
    ensures EncodeProfiles(profiles + more) == EncodeProfiles(profiles) + EncodeProfiles(more)
    decreases |profiles|
  {
    if profiles == [] {
      assert profiles + more == more;
    } else {
      EncodeProfilesAppend(profiles[1..], more);
      assert (profiles + more)[1..] == profiles[1..] + more;
      var head := if Contains(profiles[0].key, "Enc") then profiles[0].value else [];
      AppendAssoc(head, EncodeProfiles(profiles[1..]), EncodeProfiles(more));
    }
  }

  /** The profiles listed with entrypoint `entrypoint`, in order. */
  function ProfilesOf(pairs: seq<Support>, entrypoint: string): (r: seq<string>)
    ensures |r| <= |pairs|
    decreases |pairs|
  {
    if pairs == [] then []
    else
      var last := pairs[|pairs| - 1];
      ProfilesOf(pairs[..|pairs| - 1], entrypoint) + if last.entrypoint == entrypoint then [last.profile] else []
  }

  /** The `groupBy` / `mapValues` chain: each pair adds its profile to its entrypoint's
      list, creating the list on first sight. */
  function Group(pairs: seq<Support>): Profiles
    decreases |pairs|
  {
    if pairs == [] then []
    else
      var init, last := Group(pairs[..|pairs| - 1]), pairs[|pairs| - 1];
      Put(init, last.entrypoint, Find(init, last.entrypoint).GetOr([]) + [last.profile])
  }

  /** Whether some pair names `entrypoint`. */
  predicate Occurs(pairs: seq<Support>, entrypoint: string) {
    exists i :: 0 <= i < |pairs| && pairs[i].entrypoint == entrypoint
  }

  lemma OccursSnoc(pairs: seq<Support>, entrypoint: string)
    requires pairs != []
    ensures Occurs(pairs, entrypoint) <==>
      Occurs(pairs[..|pairs| - 1], entrypoint) || pairs[|pairs| - 1].entrypoint == entrypoint
  {
    var init := pairs[..|pairs| - 1];
    if Occurs(init, entrypoint) {
      var i :| 0 <= i < |init| && init[i].entrypoint == entrypoint;
      assert pairs[i] == init[i];
    }
    if Occurs(pairs, entrypoint) && pairs[|pairs| - 1].entrypoint != entrypoint {
      var i :| 0 <= i < |pairs| && pairs[i].entrypoint == entrypoint;
      assert init[i] == pairs[i];
    }
  }

  /** Each entrypoint that occurs is grouped with exactly its profiles, in order of
      appearance; an entrypoint that does not occur has no group. */
  lemma {:induction false} GroupFind(pairs: seq<Support>, entrypoint: string)
    ensures Find(Group(pairs), entrypoint) == if Occurs(pairs, entrypoint) then Some(ProfilesOf(pairs, entrypoint)) else None
    decreases |pairs|
  {
    if pairs != [] {
      var init, last := pairs[..|pairs| - 1], pairs[|pairs| - 1];
      GroupFind(init, entrypoint);
      OccursSnoc(pairs, entrypoint);
      var g := Group(init);
      var v := Find(g, last.entrypoint).GetOr([]) + [last.profile];
      assert Group(pairs) == Put(g, last.entrypoint, v);
      PutFind(g, last.entrypoint, v, entrypoint);
      if last.entrypoint == entrypoint {
        if !Occurs(init, entrypoint) {
          ProfilesOfAbsent(init, entrypoint);
        }
        assert ProfilesOf(pairs, entrypoint) == ProfilesOf(init, entrypoint) + [last.profile];
      } else {
        assert ProfilesOf(pairs, entrypoint) == ProfilesOf(init, entrypoint);
      }
    }
  }

  lemma {:induction false} ProfilesOfAbsent(pairs: seq<Support>, entrypoint: string)
    requires !Occurs(pairs, entrypoint)
    ensures ProfilesOf(pairs, entrypoint) == []
    decreases |pairs|
  {
    if pairs != [] {
      OccursSnoc(pairs, entrypoint);
      ProfilesOfAbsent(pairs[..|pairs| - 1], entrypoint);
    }
  }

  /** Groups appear in order of their entrypoint's first appearance, each once. */
  lemma {:induction false} GroupKeys(pairs: seq<Support>)
    ensures UniqueKeys(Group(pairs))
    ensures pairs != [] ==>
      var init, last := pairs[..|pairs| - 1], pairs[|pairs| - 1];
      Keys(Group(pairs)) == if Has(Group(init), last.entrypoint) then Keys(Group(init)) else Keys(Group(init)) + [last.entrypoint]
    decreases |pairs|
  {
    if pairs != [] {
      var init, last := pairs[..|pairs| - 1], pairs[|pairs| - 1];
      GroupKeys(init);
      var g := Group(init);
      PutKeys(g, last.entrypoint, Find(g, last.entrypoint).GetOr([]) + [last.profile]);
      PutUnique(g, last.entrypoint, Find(g, last.entrypoint).GetOr([]) + [last.profile]);
    }
  }

  /** `VaInfo.get` once `vainfo` has run: its failure and output without the header line
      are rejections; otherwise the info carries the header and the grouped profiles. */
  function Get(run: Result<(Option<Header>, seq<Support>), string>): (r: Result<VaInfo, string>)
    ensures r.Success? <==> run.Success? && run.value.0.Some?
    ensures r.Success? ==>
      && r.value.version == run.value.0.value.version
      && r.value.libvaVersion == run.value.0.value.libvaVersion
      && r.value.driver == run.value.0.value.driver
      && UniqueKeys(r.value.profiles)
      && forall e :: Find(r.value.profiles, e) == if Occurs(run.value.1, e) then Some(ProfilesOf(run.value.1, e)) else None
  {
    match run
    case Failure(e) => Failure(e)
    case Success((header, pairs)) =>
      if header.None? then Failure("VA-API information not found")
      else
        GroupKeys(pairs);
        assert forall e :: Find(Group(pairs), e) == if Occurs(pairs, e) then Some(ProfilesOf(pairs, e)) else None by {
          forall e ensures Find(Group(pairs), e) == if Occurs(pairs, e) then Some(ProfilesOf(pairs, e)) else None {
            GroupFind(pairs, e);
          }
        }
        Success(VaInfo(header.value.version, header.value.libvaVersion, header.value.driver, Group(pairs)))
  }
}
