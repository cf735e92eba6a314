/**
 * Event routing of the analysis WebSocket client: which file paths a decoded
 * monitoring message hands to the batching step.  Messages come in two shapes:
 * the grouped `files_changed` message, which carries lists of created,
 * modified and deleted entries, and the older single-event message
 * (`file_created`, `file_modified`, `file_deleted`, `connected`, `pong`, ...).
 */
module EventRouting {
  import opened Wrappers

  /** One entry of a grouped message; a key missing from the entry is `None`. */
  datatype FileInfo = FileInfo(filePath: Option<string>, extension: Option<string>)

  /** The `files` object of a grouped message. */
  datatype FileGroups = FileGroups(
    created: Option<seq<FileInfo>>,
    modified: Option<seq<FileInfo>>,
    deleted: Option<seq<FileInfo>>)

  /** A decoded message: the `event` key, the grouped `files` object and the
      single-event `file_path` and `extension` keys, each possibly absent. */
  datatype Event = Event(
    eventType: Option<string>,
    files: Option<FileGroups>,
    filePath: Option<string>,
    extension: Option<string>)

  datatype ChangeKind = Created | Modified | Deleted

  const FILES_CHANGED := "files_changed"

  /** Configured extensions: creation and modification ... */
  const PROCESS_EXTENSIONS: seq<string> := [".xlsx"]
  /** ... and deletion. */
  const PROCESS_DELETE_EXTENSIONS: seq<string> := [".xlsx", ".knfo", ".meta"]

  const NO_GROUPS := FileGroups(None, None, None)

  /** The extension test the handler applies to a change of the given kind
      (the handler writes the lists out literally). */
  predicate Schedules(kind: ChangeKind, ext: string)
  {
    match kind
    case Created => ext == ".xlsx"
    case Modified => ext == ".xlsx"
    case Deleted => ext in [".xlsx", ".knfo", ".meta"]
  }

  /** The change kind a single-event type names, if any. */
  function SingleEventKind(eventType: Option<string>): Option<ChangeKind>
  {
    match eventType
    case Some("file_created") => Some(Created)
    case Some("file_modified") => Some(Modified)
    case Some("file_deleted") => Some(Deleted)
    case _ => None
  }

  /** Path and extension of an entry, defaulting to the empty string. */
  function PathOf(info: FileInfo): string { info.filePath.GetOr("") }
  function ExtensionOf(info: FileInfo): string { info.extension.GetOr("") }

  /** The paths a loop over one list of a grouped message schedules, in order. */
  function GroupScheduled(kind: ChangeKind, infos: seq<FileInfo>): (r: seq<string>)
    ensures |r| <= |infos|
  {
    if infos == [] then []
    else
      var last := infos[|infos| - 1];
      GroupScheduled(kind, infos[..|infos| - 1])
        + (if Schedules(kind, ExtensionOf(last)) then [PathOf(last)] else [])
  }

  /** The paths the three loops over a grouped message schedule, in order. */
  function GroupsScheduled(groups: FileGroups): seq<string>
  {
    GroupScheduled(Created, groups.created.GetOr([]))
      + GroupScheduled(Modified, groups.modified.GetOr([]))
      + GroupScheduled(Deleted, groups.deleted.GetOr([]))
  }

  /** The path a single-event message schedules, if any. */
  function SingleScheduled(e: Event): (r: seq<string>)
    ensures |r| <= 1
  {
    match SingleEventKind(e.eventType)
    case Some(kind) =>
      if Schedules(kind, e.extension.GetOr("")) then [e.filePath.GetOr("")] else []
    case None => []
  }

  /** The paths handed to scheduling for one message, in call order. */
  function ScheduledPaths(e: Event): seq<string>
  {
    if e.eventType == Some(FILES_CHANGED) then GroupsScheduled(e.files.GetOr(NO_GROUPS))
    else SingleScheduled(e)
  }

  function Elements(s: seq<string>): (r: set<string>)
    ensures r == {} <==> s == []
  {
    var r := set x | x in s;
    assert s != [] ==> s[0] in r;
    r
  }

  lemma ElementsAppend(a: seq<string>, b: seq<string>)
    ensures Elements(a + b) == Elements(a) + Elements(b)
  {
  }

  /** One more iteration of a list's loop appends at most that entry's path. */
  lemma GroupScheduledStep(kind: ChangeKind, infos: seq<FileInfo>, i: nat)
    requires i < |infos|
    ensures GroupScheduled(kind, infos[..i + 1]) ==
            GroupScheduled(kind, infos[..i])
              + (if Schedules(kind, ExtensionOf(infos[i])) then [PathOf(infos[i])] else [])
  {
    assert infos[..i + 1][..i] == infos[..i];
  }

  /** Every path a run of messages schedules. */
  function AllScheduled(events: seq<Event>): set<string>
  {
    if events == [] then {}
    else AllScheduled(events[..|events| - 1]) + Elements(ScheduledPaths(events[|events| - 1]))
  }

  /** Some entry of `infos` has path `p` and an extension that qualifies for `kind`. */
  ghost predicate Listed(kind: ChangeKind, infos: seq<FileInfo>, p: string)
  {
    exists i :: 0 <= i < |infos| && PathOf(infos[i]) == p && Schedules(kind, ExtensionOf(infos[i]))
  }

  /** The extension rule agrees with the configured lists, creation and
      modification accept only `.xlsx`, and an absent extension never qualifies. */
  lemma RoutingRules(kind: ChangeKind, ext: string)
    ensures Schedules(kind, ext) <==>
            ext in (if kind == Deleted then PROCESS_DELETE_EXTENSIONS else PROCESS_EXTENSIONS)
    ensures Schedules(Created, ext) || Schedules(Modified, ext) ==> Schedules(Deleted, ext)
    ensures kind != Deleted ==> !Schedules(kind, ".knfo") && !Schedules(kind, ".meta")
    ensures !Schedules(kind, "")
  {
  }

  /** A path is scheduled by one list's loop iff some entry carries it with a
      qualifying extension. */
  lemma {:induction false} GroupScheduledIff(kind: ChangeKind, infos: seq<FileInfo>, p: string)
    ensures p in GroupScheduled(kind, infos) <==> Listed(kind, infos, p)
  {
    if infos != [] {
      var n := |infos| - 1;
      var init := infos[..n];
      GroupScheduledIff(kind, init, p);
      if Listed(kind, infos, p) {
        var i :| 0 <= i < |infos| && PathOf(infos[i]) == p && Schedules(kind, ExtensionOf(infos[i]));
        if i < n {
          assert init[i] == infos[i];
        }
      }
      if Listed(kind, init, p) {
        var i :| 0 <= i < |init| && PathOf(init[i]) == p && Schedules(kind, ExtensionOf(init[i]));
        assert infos[i] == init[i];
      }
    }
  }

  /** In a grouped message a path is scheduled iff a created or modified entry
      with extension `.xlsx`, or a deleted entry with extension `.xlsx`,
      `.knfo` or `.meta`, carries it. */
  lemma FilesChangedRouting(e: Event, p: string)
    requires e.eventType == Some(FILES_CHANGED)
    ensures var g := e.files.GetOr(NO_GROUPS);
            p in ScheduledPaths(e) <==>
              || Listed(Created, g.created.GetOr([]), p)
              || Listed(Modified, g.modified.GetOr([]), p)
              || Listed(Deleted, g.deleted.GetOr([]), p)
  {
    var g := e.files.GetOr(NO_GROUPS);
    GroupScheduledIff(Created, g.created.GetOr([]), p);
    GroupScheduledIff(Modified, g.modified.GetOr([]), p);
    GroupScheduledIff(Deleted, g.deleted.GetOr([]), p);
  }

  /** A grouped message returns before the single-event branches: its
      top-level `file_path` and `extension` keys play no part. */
  lemma FilesChangedIgnoresSingleFields(e: Event, path: Option<string>, ext: Option<string>)
    requires e.eventType == Some(FILES_CHANGED)
    ensures ScheduledPaths(e.(filePath := path, extension := ext)) == ScheduledPaths(e)
  {
  }

  /** A single event schedules its one path exactly when it is a creation or
      modification of an `.xlsx` file or a deletion of an `.xlsx`, `.knfo` or
      `.meta` file; a missing `file_path` schedules the empty path. */
  lemma SingleEventRouting(e: Event)
    requires e.eventType != Some(FILES_CHANGED)
    ensures var ext := e.extension.GetOr("");
            ScheduledPaths(e) != [] <==>
              || (e.eventType in {Some("file_created"), Some("file_modified")} && ext == ".xlsx")
              || (e.eventType == Some("file_deleted") && ext in {".xlsx", ".knfo", ".meta"})
    ensures ScheduledPaths(e) != [] ==> ScheduledPaths(e) == [e.filePath.GetOr("")]
    ensures e.extension == None ==> ScheduledPaths(e) == []
  {
  }

  /** `connected`, `pong`, unknown and missing event types schedule nothing. */
  lemma QuietEvents(e: Event)
    requires e.eventType !in {Some(FILES_CHANGED), Some("file_created"), Some("file_modified"), Some("file_deleted")}
    ensures ScheduledPaths(e) == []
  {
  }
}
