/**
 * The outward effects of the back-end's operations, as records in the order
 * they are issued: progress events, file-system changes, shortcuts, registry
 * writes and PATH edits. Helpers outside the modelled code (shortcut and
 * registry utilities, the icon converter, the archive extractor) appear as
 * one record per call, with its arguments.
 */
module Effects {
  import opened Base
  import WinPaths
  import PathVar

  /** A registry value: a string or a 32-bit number. */
  datatype RegValue = Text(text: string) | Dword(number: int)

  datatype Effect =
    | Emit(event: string, progress: int)
    | CreateDirAll(path: string)
    | ExtractArchive(archive: string, dest: string)
    /** One archive entry written to `rel` below `base` (`Path::join`). */
    | ExtractEntry(name: string, base: string, rel: string)
    | RemoveDirAll(path: string)
    | RemoveFile(path: string)
    | MoveDir(from: string, to: string)
    | ConvertIcon(data: string, name: string)
    | RemoveCustomIcon(name: string, timestamp: int)
    | CreateShortcut(link: string, target: string)
    | CreateDesktopShortcut(target: string, name: string, icon: Option<string>)
    | CreateStartMenuShortcut(target: string, currentUserOnly: bool, name: string, icon: Option<string>)
    | RemoveDesktopShortcut(name: string)
    | RemoveStartMenuShortcut(currentUserOnly: bool, name: string)
    | SetRegistryValue(hive: WinPaths.Hive, key: string, name: string, value: RegValue)
    | CreateRegistryEntries(name: string, currentUserOnly: bool)
    | RemoveRegistryEntries(name: string, currentUserOnly: bool)
    | RemoveRegistryTree(hive: WinPaths.Hive, key: string)
    | WritePath(write: PathVar.PathWrite)
    /** `flatten_nested_folders`: lifts the content of single nested folders into `dir`. */
    | FlattenNestedFolders(dir: string)
    | SaveList

  /**
   * A call of a helper or a file-system operation other than a deletion:
   * everything except progress events, PATH writes and deletions.
   */
  predicate IsCall(e: Effect) {
    !(e.Emit? || e.WritePath? || e.RemoveDirAll? || e.RemoveFile? || e.RemoveRegistryTree?)
  }

  /** The progress events among the effects, in order, as (event, value) pairs. */
  function Emitted(effects: seq<Effect>): seq<(string, int)> {
    if effects == [] then []
    else
      var last := effects[|effects| - 1];
      Emitted(effects[..|effects| - 1]) + (if last.Emit? then [(last.event, last.progress)] else [])
  }

  /** The paths deleted (directories and files), in order. */
  function Removed(effects: seq<Effect>): seq<string> {
    if effects == [] then []
    else
      var last := effects[|effects| - 1];
      Removed(effects[..|effects| - 1]) + (if last.RemoveDirAll? || last.RemoveFile? then [last.path] else [])
  }

  /** The PATH values written back, in order. */
  function PathWrites(effects: seq<Effect>): seq<PathVar.PathWrite> {
    if effects == [] then []
    else
      var last := effects[|effects| - 1];
      PathWrites(effects[..|effects| - 1]) + (if last.WritePath? then [last.write] else [])
  }

  /** The registry trees removed, in order. */
  function RemovedKeys(effects: seq<Effect>): seq<(WinPaths.Hive, string)> {
    if effects == [] then []
    else
      var last := effects[|effects| - 1];
      RemovedKeys(effects[..|effects| - 1]) + (if last.RemoveRegistryTree? then [(last.hive, last.key)] else [])
  }

  /** The helper calls among the effects, in order. */
  function Calls(effects: seq<Effect>): seq<Effect> {
    if effects == [] then []
    else
      var last := effects[|effects| - 1];
      Calls(effects[..|effects| - 1]) + (if IsCall(last) then [last] else [])
  }

  lemma Snoc(effects: seq<Effect>, e: Effect)
    ensures Emitted(effects + [e]) == Emitted(effects) + (if e.Emit? then [(e.event, e.progress)] else [])
    ensures Removed(effects + [e]) == Removed(effects) + (if e.RemoveDirAll? || e.RemoveFile? then [e.path] else [])
    ensures PathWrites(effects + [e]) == PathWrites(effects) + (if e.WritePath? then [e.write] else [])
    ensures RemovedKeys(effects + [e]) == RemovedKeys(effects) + (if e.RemoveRegistryTree? then [(e.hive, e.key)] else [])
    ensures Calls(effects + [e]) == Calls(effects) + (if IsCall(e) then [e] else [])
  {
    assert (effects + [e])[..|effects|] == effects;
  }

  /** Issues a progress event. */
  method Announce(effects: seq<Effect>, event: string, progress: int) returns (effects': seq<Effect>)
    ensures effects' == effects + [Emit(event, progress)]
    ensures Emitted(effects') == Emitted(effects) + [(event, progress)]
    ensures Removed(effects') == Removed(effects) && PathWrites(effects') == PathWrites(effects)
    ensures RemovedKeys(effects') == RemovedKeys(effects) && Calls(effects') == Calls(effects)
  {
    Snoc(effects, Emit(event, progress));
    effects' := effects + [Emit(event, progress)];
  }

  /** Issues an effect that is not a progress event. */
  method Perform(effects: seq<Effect>, e: Effect) returns (effects': seq<Effect>)
    requires !e.Emit?
    ensures effects' == effects + [e]
    ensures Emitted(effects') == Emitted(effects)
    ensures Removed(effects') == Removed(effects) + (if e.RemoveDirAll? || e.RemoveFile? then [e.path] else [])
    ensures PathWrites(effects') == PathWrites(effects) + (if e.WritePath? then [e.write] else [])
    ensures RemovedKeys(effects') == RemovedKeys(effects) + (if e.RemoveRegistryTree? then [(e.hive, e.key)] else [])
    ensures Calls(effects') == Calls(effects) + (if IsCall(e) then [e] else [])
  {
    Snoc(effects, e);
    effects' := effects + [e];
  }

  /** The effect when the step applies, nothing otherwise. */
  function Opt(b: bool, e: Effect): seq<Effect> {
    if b then [e] else []
  }

  /** Calls a helper when the step applies. */
  method PerformIf(effects: seq<Effect>, b: bool, e: Effect) returns (effects': seq<Effect>)
    requires IsCall(e)
    ensures Calls(effects') == Calls(effects) + Opt(b, e)
    ensures Emitted(effects') == Emitted(effects) && PathWrites(effects') == PathWrites(effects)
    ensures Removed(effects') == Removed(effects) && RemovedKeys(effects') == RemovedKeys(effects)
  {
    effects' := effects;
    if b {
      effects' := Perform(effects, e);
    }
  }

  /** The first progress report, which opens every script. */
  method Begin(event: string) returns (effects: seq<Effect>)
    ensures effects == [Emit(event, 0)]
    ensures Emitted(effects) == [(event, 0)] && Removed(effects) == []
    ensures PathWrites(effects) == [] && RemovedKeys(effects) == [] && Calls(effects) == []
  {
    assert Emitted([]) == [] && Removed([]) == [] && PathWrites([]) == [] && RemovedKeys([]) == [] && Calls([]) == [];
    effects := Announce([], event, 0);
  }

  /** Issues the registry writes of a PATH edit; `ok` is its outcome. */
  method ApplyEdit(effects: seq<Effect>, edit: PathVar.PathEdit) returns (ok: bool, effects': seq<Effect>)
    requires |edit.writes| <= 1
    ensures ok <==> edit.result.Ok?
    ensures PathWrites(effects') == PathWrites(effects) + edit.writes
    ensures Emitted(effects') == Emitted(effects) && Removed(effects') == Removed(effects)
    ensures RemovedKeys(effects') == RemovedKeys(effects) && Calls(effects') == Calls(effects)
  {
    effects' := effects;
    ok := edit.result.Ok?;
    if edit.writes != [] {
      effects' := Perform(effects, WritePath(edit.writes[0]));
      assert [edit.writes[0]] == edit.writes;
    }
  }
}
