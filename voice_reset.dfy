/** `delete_existing_voice_data`: clears the enrolled voice before a new
    enrollment. The samples directory goes as a whole; the models directory
    is emptied entry by entry and kept. */
module VoiceReset {
  import opened FileStore
  import opened Layout

  /** `shutil.rmtree` of the samples directory succeeds. */
  ghost predicate SamplesCleared(m: map<Path, Kind>, locked: set<Path>) {
    IsDir(m, VoiceSamplesDir) && !TreeBlocked(m, locked, VoiceSamplesDir)
  }

  /** The store once the samples directory has been dealt with. */
  ghost function AfterSamples(m: map<Path, Kind>, locked: set<Path>): map<Path, Kind> {
    if SamplesCleared(m, locked) then WithoutTree(m, VoiceSamplesDir) else m
  }

  /** The loop over the models directory runs to completion. */
  ghost predicate ModelsCleared(m: map<Path, Kind>, locked: set<Path>) {
    IsDir(m, VoiceModelsDir) && !ContentsBlocked(m, locked, VoiceModelsDir)
  }

  /** What a reset can leave behind, starting from `m`: the samples tree
      gone when `rmtree` succeeds; the models directory emptied when every
      removal succeeds; otherwise partly emptied, as `StoppedPart` says: the
      entries listed before the first failing removal are gone and the one
      that failed, holding a locked entry, stays. Nothing is added and
      nothing else is removed. */
  ghost predicate ResetLeaves(m: map<Path, Kind>, locked: set<Path>, r: map<Path, Kind>) {
    var mA := AfterSamples(m, locked);
    && (SamplesCleared(m, locked) ==> VoiceSamplesDir !in r)
    && (!IsDir(mA, VoiceModelsDir) ==> r == mA)
    && (ModelsCleared(mA, locked) ==> r == WithoutContents(mA, VoiceModelsDir))
    && (IsDir(mA, VoiceModelsDir) && !ModelsCleared(mA, locked) ==>
          StoppedPart(mA, locked, VoiceModelsDir, ChildNames(mA, VoiceModelsDir), r))
    && (forall p :: p in r ==> p in m && r[p] == m[p])
    && (forall p :: p in m && !(VoiceSamplesDir <= p) && !(VoiceModelsDir < p) ==> p in r)
  }

  /** Returns whether the samples directory was removed or the models
      directory was emptied. Every exception is caught: a failed `rmtree`
      of the samples leaves them in place, and a failed removal inside the
      models directory stops the loop with the entries before it gone. */
  method DeleteExistingVoiceData(disk: Disk) returns (deleted: bool)
    requires disk.Valid()
    modifies disk
    ensures disk.Valid()
    ensures deleted == (SamplesCleared(old(disk.entries), disk.locked)
                        || ModelsCleared(AfterSamples(old(disk.entries), disk.locked), disk.locked))
    ensures ResetLeaves(old(disk.entries), disk.locked, disk.entries)
  {
    deleted := false;
    if disk.Exists(VoiceSamplesDir) {
      var ok := disk.RemoveTree(VoiceSamplesDir);
      if ok {
        deleted := true;
      }
    }
    ghost var mA := disk.entries;
    if disk.IsDirectory(VoiceModelsDir) {
      var names := disk.ListDir(VoiceModelsDir);
      assert (set n | n in names) == ChildNames(mA, VoiceModelsDir);
      AllChildren(mA, disk.locked, VoiceModelsDir);
      var ok := disk.RemoveEach(VoiceModelsDir, names);
      if ok {
        deleted := true;
      } else {
        ghost var k :| 0 <= k < |names|
          && disk.entries == WithoutChildren(mA, VoiceModelsDir, set j | 0 <= j < k :: names[j])
          && !ChildrenBlocked(mA, disk.locked, VoiceModelsDir, set j | 0 <= j < k :: names[j])
          && ChildrenBlocked(mA, disk.locked, VoiceModelsDir, {names[k]});
        PrefixStop(mA, disk.locked, VoiceModelsDir, names, k, disk.entries);
      }
    }
  }

  /** Right after a call whose loop over the models directory completed, a
      second call finds nothing to remove from the samples, empties an
      already empty models directory, returns true and changes nothing. */
  lemma ResetIdempotent(m0: map<Path, Kind>, locked: set<Path>)
    requires Tree(m0)
    requires ModelsCleared(AfterSamples(m0, locked), locked)
    ensures var m1 := WithoutContents(AfterSamples(m0, locked), VoiceModelsDir);
      && !SamplesCleared(m1, locked)
      && AfterSamples(m1, locked) == m1
      && ModelsCleared(m1, locked)
      && WithoutContents(m1, VoiceModelsDir) == m1
  {
    var mA := AfterSamples(m0, locked);
    var m1 := WithoutContents(mA, VoiceModelsDir);
    if !SamplesCleared(m0, locked) && IsDir(m0, VoiceSamplesDir) {
      var p :| p in m0 && p in locked && VoiceSamplesDir <= p;
      assert p[2] == "samples";
      assert p in m1;
    }
  }
}
