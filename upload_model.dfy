/**
  The 3D-model upload form (src/components/UploadModel.tsx): picking a
  `.glb` file, the two guards in front of an upload, the resets when one
  starts, and the storage task's progress, error and completion callbacks.

  The storage service is outside. Starting an upload and invoking the
  `onUploadComplete` prop are recorded in `effects`; the signed-in user,
  whether the synchronous storage calls throw, and the download URL are
  parameters. A task callback with no task registered changes nothing.
 */
module UploadModel {
  import opened JsRuntime

  datatype FileInfo = FileInfo(name: string, size: nat)

  datatype Effect =
    | StartUpload(path: string)
    | NotifyComplete(url: string, fileName: string)

  datatype UploadState = UploadState(
    file: Option<FileInfo>,
    progress: int,
    uploading: bool,
    error: Option<string>,
    success: bool,
    /** The file name captured by the running task's callbacks. */
    task: Option<string>,
    effects: seq<Effect>)

  const DefaultFolder: string := "models"
  const GlbSuffix: string := ".glb"
  const NotGlbError: string := "Por favor, selecione um arquivo .glb"
  // Two literals: the verifier reads the characters of a short literal, and
  // EnabledButtonPassesFileGuard needs this message's first character.
  const NoFileError: string := "Por favor, selecione " + "um arquivo para fazer upload"
  const NoUserError: string := "Precisa estar autenticado para fazer upload"
  const UploadErrorPrefix: string := "Erro ao fazer upload: "

  function Initial(): (s: UploadState)
    ensures s.file == None && !s.uploading && !s.success && s.error == None && s.progress == 0
  {
    UploadState(None, 0, false, None, false, None, [])
  }

  /** The `folder` prop with its default, which applies only when the prop is absent. */
  function FolderProp(folder: Option<string>): (f: string)
    ensures folder.None? ==> f == DefaultFolder
    ensures folder.Some? ==> f == folder.value
  {
    match folder
    case None => DefaultFolder
    case Some(given) => given
  }

  /** `name.endsWith('.glb')`, case-sensitive. */
  predicate IsGlb(name: string) {
    EndsWith(name, GlbSuffix)
  }

  function StoragePath(folder: string, fileName: string): string {
    folder + "/" + fileName
  }

  // ---------------------------------------------------------------------
  // Transitions
  // ---------------------------------------------------------------------

  /** handleFileChange with the input's file list. */
  function SelectFiles(s: UploadState, files: seq<FileInfo>): (r: UploadState)
    ensures files == [] ==> r == s
    ensures files != [] && IsGlb(files[0].name) ==> r == s.(file := Some(files[0]), error := None)
    ensures files != [] && !IsGlb(files[0].name) ==> r == s.(file := None, error := Some(NotGlbError))
  {
    if files == [] then s
    else if IsGlb(files[0].name) then s.(file := Some(files[0]), error := None)
    else s.(error := Some(NotGlbError), file := None)
  }

  /** handleUpload; startError is the message of an exception from the synchronous storage calls. */
  function Upload(s: UploadState, folder: string, user: Option<string>, startError: Option<string>): (r: UploadState)
    ensures s.file.None? ==> r == s.(error := Some(NoFileError))
    ensures s.file.Some? && user.None? ==> r == s.(error := Some(NoUserError))
    ensures s.file.Some? && user.Some? ==>
      r.progress == 0 && !r.success && r.file == s.file
      && (r.uploading <==> startError.None?)
      && (startError.None? ==>
            (r.error == None && r.task == Some(s.file.value.name)
             && r.effects == s.effects + [StartUpload(StoragePath(folder, s.file.value.name))]))
      && (startError.Some? ==> (r.error == Some(UploadErrorPrefix + startError.value) && r.effects == s.effects
                                && r.task == s.task))
  {
    if s.file.None? then s.(error := Some(NoFileError))
    else if user.None? then s.(error := Some(NoUserError))
    else
      var s1 := s.(uploading := true, progress := 0, error := None, success := false);
      match startError
      case Some(message) => s1.(error := Some(UploadErrorPrefix + message), uploading := false)
      case None =>
        var fileName := s.file.value.name;
        s1.(task := Some(fileName), effects := s1.effects + [StartUpload(StoragePath(folder, fileName))])
  }

  /** The task's progress callback, with the rounded percentage as an opaque number. */
  function Progress(s: UploadState, value: int): (r: UploadState)
    ensures r == s.(progress := r.progress)
    ensures s.task.Some? ==> r.progress == value
    ensures s.task.None? ==> r == s
  {
    if s.task.Some? then s.(progress := value) else s
  }

  /** The task's error callback: `success` is left as it was. */
  function TaskFailed(s: UploadState, message: string): (r: UploadState)
    ensures s.task.Some? ==> r == s.(error := Some(UploadErrorPrefix + message), uploading := false)
    ensures s.task.None? ==> r == s
    ensures r.success == s.success
  {
    if s.task.Some? then s.(error := Some(UploadErrorPrefix + message), uploading := false) else s
  }

  /**
    The task's completion callback; url is what getDownloadURL resolves to,
    None when it rejects (the callback then stops before any update).
    notifies says whether the onUploadComplete prop was given.
   */
  function TaskCompleted(s: UploadState, url: Option<string>, notifies: bool): (r: UploadState)
    ensures s.task.Some? && url.Some? ==>
      r.success && !r.uploading && r.error == s.error && r.file == s.file
      && r.progress == s.progress && r.task == s.task
      && r.effects == s.effects + (if notifies then [NotifyComplete(url.value, s.task.value)] else [])
    ensures s.task.None? || url.None? ==> r == s
  {
    if s.task.Some? && url.Some? then
      var s1 := s.(success := true, uploading := false);
      if notifies then s1.(effects := s1.effects + [NotifyComplete(url.value, s.task.value)]) else s1
    else s
  }

  /** `disabled={!file || uploading}` on the button. */
  predicate UploadDisabled(s: UploadState) {
    s.file.None? || s.uploading
  }

  /** `disabled={uploading}` on the file input. */
  predicate InputDisabled(s: UploadState) {
    s.uploading
  }

  datatype UploadEvent =
    | FilesChosen(files: seq<FileInfo>)
    | UploadPressed(user: Option<string>, startError: Option<string>)
    | ProgressReported(value: int)
    | TaskErrored(message: string)
    | TaskDone(url: Option<string>)

  function Step(s: UploadState, folder: string, notifies: bool, e: UploadEvent): UploadState {
    match e
    case FilesChosen(files) => SelectFiles(s, files)
    case UploadPressed(user, startError) => Upload(s, folder, user, startError)
    case ProgressReported(value) => Progress(s, value)
    case TaskErrored(message) => TaskFailed(s, message)
    case TaskDone(url) => TaskCompleted(s, url, notifies)
  }

  function Run(s: UploadState, folder: string, notifies: bool, events: seq<UploadEvent>): UploadState
    decreases |events|
  {
    if events == [] then s else Run(Step(s, folder, notifies, events[0]), folder, notifies, events[1..])
  }

  /** Never both uploading and successful; an upload in progress has a task. */
  predicate Inv(s: UploadState) {
    !(s.success && s.uploading) && (s.uploading ==> s.task.Some?)
  }

  // ---------------------------------------------------------------------
  // Properties
  // ---------------------------------------------------------------------

  lemma {:induction false} RunKeepsInv(s: UploadState, folder: string, notifies: bool, events: seq<UploadEvent>)
    requires Inv(s)
    ensures Inv(Run(s, folder, notifies, events))
    decreases |events|
  {
    if events != [] {
      var s1 := Step(s, folder, notifies, events[0]);
      assert Inv(s1);
      RunKeepsInv(s1, folder, notifies, events[1..]);
    }
  }

  /** The suffix test is exact and case-sensitive. */
  lemma GlbSuffixCaseSensitive(base: string)
    ensures IsGlb(base + ".glb")
    ensures !IsGlb(base + ".GLB")
  {
    EndsWithAppend(base, ".glb");
    var upper := base + ".GLB";
    assert upper[|upper| - 4..] == ".GLB";
  }

  /** A name shorter than the suffix is never accepted. */
  lemma ShortNameRejected(name: string)
    requires |name| < |GlbSuffix|
    ensures !IsGlb(name)
  {
  }

  /** The storage path splits back into the folder and the file name. */
  lemma StoragePathSplits(folder: string, fileName: string)
    requires '/' !in folder
    ensures Before(StoragePath(folder, fileName), '/') == folder
    ensures After(StoragePath(folder, fileName), '/') == fileName
  {
    assert StoragePath(folder, fileName) == folder + ['/'] + fileName;
    SplitAtFirst(folder, '/', fileName);
  }

  /** With the folder prop absent, files go under "models/". */
  lemma DefaultFolderPath(fileName: string)
    ensures Before(StoragePath(FolderProp(None), fileName), '/') == "models"
    ensures After(StoragePath(FolderProp(None), fileName), '/') == fileName
  {
    assert '/' !in DefaultFolder;
    StoragePathSplits(DefaultFolder, fileName);
  }

  /** The file check comes before the user check. */
  lemma FileGuardFirst(s: UploadState, folder: string, user: Option<string>, startError: Option<string>)
    requires s.file.None?
    ensures Upload(s, folder, user, startError) == s.(error := Some(NoFileError))
    ensures Upload(s, folder, user, startError).effects == s.effects
  {
  }

  /**
    When the button is enabled the "select a file" guard cannot be what stops
    an upload.
   */
  lemma EnabledButtonPassesFileGuard(s: UploadState, folder: string, user: Option<string>, startError: Option<string>)
    requires !UploadDisabled(s)
    ensures Upload(s, folder, user, startError).error != Some(NoFileError)
  {
    var r := Upload(s, folder, user, startError);
    if user.Some? && startError.Some? {
      assert r.error.value[0] == UploadErrorPrefix[0] == 'E';
      assert NoFileError[0] == 'P';
    }
  }

  /**
    A successful upload, start to finish: the task stores the file under
    folder/name, and the callback gets the download URL with the same name.
   */
  lemma UploadThenComplete(s: UploadState, folder: string, f: FileInfo, user: string, url: string)
    requires s.file == Some(f)
    ensures var done := TaskCompleted(Upload(s, folder, Some(user), None), Some(url), true);
      done.success && !done.uploading && done.error == None && done.progress == 0
      && done.effects == s.effects + [StartUpload(StoragePath(folder, f.name)), NotifyComplete(url, f.name)]
  {
    var started := Upload(s, folder, Some(user), None);
    assert started.effects + [NotifyComplete(url, f.name)]
      == s.effects + [StartUpload(StoragePath(folder, f.name)), NotifyComplete(url, f.name)];
  }

  /** A failed task ends the upload with the storage message and no success. */
  lemma UploadThenFail(s: UploadState, folder: string, f: FileInfo, user: string, message: string)
    requires s.file == Some(f)
    ensures var failed := TaskFailed(Upload(s, folder, Some(user), None), message);
      !failed.success && !failed.uploading && failed.error == Some(UploadErrorPrefix + message)
  {
  }

  /**
    The file input is locked from the moment a task starts until the task
    reports an error or completes; while locked, the button is disabled too.
   */
  lemma InputLockedDuringUpload(s: UploadState, folder: string, f: FileInfo, user: string,
                                message: string, url: string, notifies: bool)
    requires s.file == Some(f)
    ensures var started := Upload(s, folder, Some(user), None);
      InputDisabled(started) && UploadDisabled(started)
      && !InputDisabled(TaskFailed(started, message))
      && !InputDisabled(TaskCompleted(started, Some(url), notifies))
  {
  }

  /** A start that throws synchronously leaves the input unlocked. */
  lemma InputFreeAfterStartError(s: UploadState, folder: string, f: FileInfo, user: string, message: string)
    requires s.file == Some(f)
    ensures !InputDisabled(Upload(s, folder, Some(user), Some(message)))
    ensures !UploadDisabled(Upload(s, folder, Some(user), Some(message)))
  {
  }

  // ---------------------------------------------------------------------
  // The component
  // ---------------------------------------------------------------------

  class UploadForm {
    const folder: string
    /** Whether the onUploadComplete prop was given. */
    const notifies: bool
    var file: Option<FileInfo>
    var progress: int
    var uploading: bool
    var error: Option<string>
    var success: bool
    var task: Option<string>
    var effects: seq<Effect>

    function State(): UploadState
      reads this
    {
      UploadState(file, progress, uploading, error, success, task, effects)
    }

    ghost predicate Valid()
      reads this
    {
      Inv(State())
    }

    constructor (folderProp: Option<string>, onUploadComplete: bool)
      ensures Valid() && State() == Initial()
      ensures folder == FolderProp(folderProp) && notifies == onUploadComplete
    {
      folder := FolderProp(folderProp);
      notifies := onUploadComplete;
      file := None;
      progress := 0;
      uploading := false;
      error := None;
      success := false;
      task := None;
      effects := [];
    }

    method HandleFileChange(files: seq<FileInfo>)
      requires Valid()
      modifies this
      ensures Valid() && State() == SelectFiles(old(State()), files)
    {
      if |files| > 0 {
        var selectedFile := files[0];
        if EndsWith(selectedFile.name, GlbSuffix) {
          file := Some(selectedFile);
          error := None;
        } else {
          error := Some(NotGlbError);
          file := None;
        }
      }
    }

    method HandleUpload(user: Option<string>, startError: Option<string>)
      requires Valid()
      modifies this
      ensures Valid() && State() == Upload(old(State()), folder, user, startError)
    {
      if file.None? {
        error := Some(NoFileError);
        return;
      }
      if user.None? {
        error := Some(NoUserError);
        return;
      }
      uploading := true;
      progress := 0;
      error := None;
      success := false;
      if startError.Some? {
        error := Some(UploadErrorPrefix + startError.value);
        uploading := false;
        return;
      }
      var fileName := file.value.name;
      effects := effects + [StartUpload(folder + "/" + fileName)];
      task := Some(fileName);
    }

    method OnProgress(value: int)
      requires Valid()
      modifies this
      ensures Valid() && State() == Progress(old(State()), value)
    {
      if task.Some? {
        progress := value;
      }
    }

    method OnUploadError(message: string)
      requires Valid()
      modifies this
      ensures Valid() && State() == TaskFailed(old(State()), message)
    {
      if task.Some? {
        error := Some(UploadErrorPrefix + message);
        uploading := false;
      }
    }

    method OnUploadComplete(url: Option<string>)
      requires Valid()
      modifies this
      ensures Valid() && State() == TaskCompleted(old(State()), url, notifies)
    {
      if task.Some? && url.Some? {
        success := true;
        uploading := false;
        if notifies {
          effects := effects + [NotifyComplete(url.value, task.value)];
        }
      }
    }

    function ButtonDisabled(): (d: bool)
      reads this
      ensures d <==> file.None? || uploading
    {
      UploadDisabled(State())
    }

    function FileInputDisabled(): (d: bool)
      reads this
      ensures d <==> uploading
    {
      InputDisabled(State())
    }
  }
}
