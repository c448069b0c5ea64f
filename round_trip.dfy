/** Saving a game and starting a new one from what was saved: the two halves
    of persistence meet here. */
module RoundTrip {
  import opened Json
  import opened Engine
  import opened SaveManager

  /** The record a save writes hydrates back into exactly the state that was
      saved: the two metadata entries are not game fields and are passed over. */
  lemma SavedRecordHydrates(s: GameState, savedAt: real)
    ensures Hydrate(Some(ToWrite(StateRecord(s), savedAt))) == s
  {
    var d := ToWrite(StateRecord(s), savedAt);
    assert "currency" in d;
    assert forall k :: k in FieldNames ==> k !in MetaKeys;
    HydrateStateRecord(s);
  }

  /** Takes a snapshot, saves it, loads the main save file back and builds a
      new game from it, as the program does between one run and the next. The
      new game has every field of the one saved, whatever the retention limit. */
  method SaveAndRestore(fs: FileSystem, game: PitStopGame, backupsToKeep: int, savedAt: real, clock: real)
    returns (restored: PitStopGame)
    modifies fs
    ensures fresh(restored)
    ensures restored.State() == game.State()
  {
    var snapshot := game.GetState();
    var kept, removed, raised := SaveGame(fs, snapshot, savedAt, clock, backupsToKeep);
    var loaded := LoadGame(fs);
    assert loaded == Parsed(ToWrite(snapshot, savedAt));
    SavedRecordHydrates(game.State(), savedAt);
    restored := new PitStopGame(Some(loaded.data));
  }
}
