/** The abuse-report page (app/report/page.tsx): the report form, its evidence
    files and the drag-and-drop flag. */
module Report {
  import opened Wrappers
  import opened Sequences

  /** What the page reads of a browser `File`: its MIME type and its size in bytes. */
  datatype FileInfo = FileInfo(name: string, mimeType: string, size: nat)

  datatype ReportForm = ReportForm(
    description: string,
    address: string,
    name: string,
    email: string,
    files: seq<FileInfo>)

  /** The `name` attributes of the inputs wired to `handleInputChange`. */
  datatype Field = Description | Address | Name | Email

  /** A record of the small shelter list a report is connected to. */
  datatype ReportShelter = ReportShelter(id: int, name: string, phone: string, email: string)

  /** The browser's kinds of drag event, as `e.type` names them. */
  type EventType = string

  const MaxFileSize: nat := 50 * 1024 * 1024
  const MaxFiles: nat := 5

  const EmptyForm := ReportForm("", "", "", "", [])

  function ReportShelters(): (r: seq<ReportShelter>)
    ensures |r| == 3
  {
    [ ReportShelter(1, "City Animal Protection Services", "(555) 123-4567", "emergency@cityaps.org"),
      ReportShelter(2, "Humane Society Emergency Response", "(555) 987-6543", "report@humanesociety.org"),
      ReportShelter(3, "Animal Control & Welfare Department", "(555) 456-7890", "intake@animalcontrol.gov") ]
  }

  /** An upload keeps a file only if it is an image or a video of at most 50 MiB. */
  predicate IsAcceptable(f: FileInfo) {
    ("image/" <= f.mimeType || "video/" <= f.mimeType) && f.size <= MaxFileSize
  }

  /** `handleFileUpload`'s new list: the old files followed by the acceptable new
      ones, in order, cut to the first five; no file list leaves the prior one. */
  function Uploaded(prior: seq<FileInfo>, incoming: Option<seq<FileInfo>>): (r: seq<FileInfo>)
    ensures incoming.None? ==> r == prior
    ensures incoming.Some? ==> r <= prior + Filter(incoming.value, IsAcceptable)
    ensures |r| <= MaxFiles || r == prior
    ensures incoming.Some? ==> |r| == MaxFiles || r == prior + Filter(incoming.value, IsAcceptable)
  {
    match incoming
    case None => prior
    case Some(fs) => Take(prior + Filter(fs, IsAcceptable), MaxFiles)
  }

  /** An upload never drops or reorders the files already chosen, and every file it
      adds is acceptable and was among those offered. */
  lemma UploadKeepsExisting(prior: seq<FileInfo>, incoming: Option<seq<FileInfo>>)
    requires |prior| <= MaxFiles
    ensures prior <= Uploaded(prior, incoming)
    ensures |Uploaded(prior, incoming)| <= MaxFiles
    ensures forall i :: |prior| <= i < |Uploaded(prior, incoming)| ==>
              IsAcceptable(Uploaded(prior, incoming)[i])
              && Uploaded(prior, incoming)[i] in incoming.value
  {
    if incoming.Some? {
      var valid := Filter(incoming.value, IsAcceptable);
      var r := Uploaded(prior, incoming);
      forall i | |prior| <= i < |r|
        ensures IsAcceptable(r[i]) && r[i] in incoming.value
      {
        assert r[i] == valid[i - |prior|];
        assert valid[i - |prior|] in multiset(valid);
      }
    }
  }

  /** Submit is disabled while submitting and while either required text is empty. */
  function SubmitDisabled(f: ReportForm, isSubmitting: bool): (disabled: bool)
    ensures !disabled <==> !isSubmitting && |f.description| > 0 && |f.address| > 0
  {
    isSubmitting || f.description == "" || f.address == ""
  }

  /** Typing a description and an address enables the button whatever the form held
      before, as long as no submission is in flight. */
  lemma FillingRequiredFieldsEnables(f: ReportForm, description: string, address: string)
    requires description != "" && address != ""
    ensures !SubmitDisabled(WithField(WithField(f, Description, description), Address, address), false)
    ensures !SubmitDisabled(WithField(WithField(f, Address, address), Description, description), false)
  {
  }

  /** `{ ...prev, [name]: value }` for one of the four text fields. */
  function WithField(f: ReportForm, field: Field, value: string): (r: ReportForm)
    ensures r.files == f.files
    ensures r.description == (if field == Description then value else f.description)
    ensures r.address == (if field == Address then value else f.address)
    ensures r.name == (if field == Name then value else f.name)
    ensures r.email == (if field == Email then value else f.email)
  {
    match field
    case Description => f.(description := value)
    case Address => f.(address := value)
    case Name => f.(name := value)
    case Email => f.(email := value)
  }

  /** `dragActive` after a drag event of type `t`. */
  function DragFlag(active: bool, t: EventType): bool {
    if t == "dragenter" || t == "dragover" then true
    else if t == "dragleave" then false
    else active
  }

  /** The event types `handleDrag` acts on. */
  predicate Decisive(t: EventType) {
    t == "dragenter" || t == "dragover" || t == "dragleave"
  }

  /** `dragActive` after a run of drag events, handled in order. */
  function DragAfter(active: bool, events: seq<EventType>): bool {
    if events == [] then active
    else DragFlag(DragAfter(active, events[..|events| - 1]), events[|events| - 1])
  }

  /** After a run of drag events the flag is set exactly when the last event that
      `handleDrag` acts on was an enter or an over, and other events never move it. */
  lemma {:induction false} DragFollowsLastDecisive(active: bool, events: seq<EventType>, i: int)
    requires -1 <= i < |events|
    requires i >= 0 ==> Decisive(events[i])
    requires forall j :: i < j < |events| ==> !Decisive(events[j])
    ensures i >= 0 ==> (DragAfter(active, events) <==> events[i] != "dragleave")
    ensures i < 0 ==> DragAfter(active, events) == active
  {
    if events != [] && i < |events| - 1 {
      var init := events[..|events| - 1];
      assert forall j :: i < j < |init| ==> init[j] == events[j];
      DragFollowsLastDecisive(active, init, i);
    }
  }

  class ReportPage {
    var formData: ReportForm
    var location: Option<(real, real)>
    var locationError: string
    var isSubmitting: bool
    var submitted: bool
    var connectedShelter: Option<ReportShelter>
    var dragActive: bool

    /** At most five files are ever held. */
    ghost predicate Valid()
      reads this
    {
      |formData.files| <= MaxFiles
    }

    /** Whether the submit button is disabled in this state. */
    predicate SubmitButtonDisabled()
      reads this
    {
      SubmitDisabled(formData, isSubmitting)
    }

    /** The initial state, before the location lookup of the mount effect answers;
        the button starts disabled. */
    constructor ()
      ensures Valid() && SubmitButtonDisabled()
      ensures formData == EmptyForm && location == None && locationError == ""
      ensures !isSubmitting && !submitted && connectedShelter == None && !dragActive
    {
      formData := EmptyForm;
      location := None;
      locationError := "";
      isSubmitting := false;
      submitted := false;
      connectedShelter := None;
      dragActive := false;
    }

    method HandleInputChange(field: Field, value: string)
      modifies this
      ensures formData == WithField(old(formData), field, value)
      ensures location == old(location) && locationError == old(locationError)
      ensures isSubmitting == old(isSubmitting) && submitted == old(submitted)
      ensures connectedShelter == old(connectedShelter) && dragActive == old(dragActive)
      ensures Valid() == old(Valid())
    {
      formData := WithField(formData, field, value);
    }

    method HandleFileUpload(files: Option<seq<FileInfo>>)
      requires Valid()
      modifies this
      ensures Valid()
      ensures formData == old(formData).(files := Uploaded(old(formData.files), files))
      ensures old(formData.files) <= formData.files
      ensures location == old(location) && locationError == old(locationError)
      ensures isSubmitting == old(isSubmitting) && submitted == old(submitted)
      ensures connectedShelter == old(connectedShelter) && dragActive == old(dragActive)
    {
      UploadKeepsExisting(formData.files, files);
      formData := formData.(files := Uploaded(formData.files, files));
    }

    method HandleDrag(eventType: EventType)
      modifies this
      ensures dragActive == DragFlag(old(dragActive), eventType)
      ensures eventType == "dragenter" || eventType == "dragover" ==> dragActive
      ensures eventType == "dragleave" ==> !dragActive
      ensures eventType != "dragenter" && eventType != "dragover" && eventType != "dragleave" ==>
                dragActive == old(dragActive)
      ensures formData == old(formData) && location == old(location)
      ensures locationError == old(locationError) && isSubmitting == old(isSubmitting)
      ensures submitted == old(submitted) && connectedShelter == old(connectedShelter)
      ensures Valid() == old(Valid())
    {
      dragActive := DragFlag(dragActive, eventType);
    }

    /** The drop ends the drag and uploads the dropped files when there is at least one. */
    method HandleDrop(dropped: Option<seq<FileInfo>>)
      requires Valid()
      modifies this
      ensures Valid()
      ensures !dragActive
      ensures formData == old(formData).(files :=
                if dropped.Some? && |dropped.value| > 0 then Uploaded(old(formData.files), dropped)
                else old(formData.files))
      ensures location == old(location) && locationError == old(locationError)
      ensures isSubmitting == old(isSubmitting) && submitted == old(submitted)
      ensures connectedShelter == old(connectedShelter)
    {
      dragActive := false;
      if dropped.Some? && |dropped.value| > 0 {
        HandleFileUpload(dropped);
      }
    }

    /** Deletes exactly the file at `index`; any other index leaves the list as it is. */
    method RemoveFile(index: int)
      requires Valid()
      modifies this
      ensures Valid()
      ensures formData == old(formData).(files := WithoutIndex(old(formData.files), index))
      ensures 0 <= index < |old(formData.files)| ==>
                formData.files == old(formData.files[..index]) + old(formData.files[index + 1..])
      ensures !(0 <= index < |old(formData.files)|) ==> formData.files == old(formData.files)
      ensures location == old(location) && locationError == old(locationError)
      ensures isSubmitting == old(isSubmitting) && submitted == old(submitted)
      ensures connectedShelter == old(connectedShelter) && dragActive == old(dragActive)
    {
      formData := formData.(files := WithoutIndex(formData.files, index));
    }

    /** The state once the simulated submission has finished: the report is
        connected to one of the three shelters, chosen at random. */
    method HandleSubmit()
      modifies this
      ensures !isSubmitting && submitted
      ensures connectedShelter.Some? && connectedShelter.value in ReportShelters()
      ensures formData == old(formData) && location == old(location)
      ensures locationError == old(locationError) && dragActive == old(dragActive)
      ensures Valid() == old(Valid())
    {
      // Only the state after the simulated delay is modelled, so `isSubmitting`
      // is false again here.
      var choice :| 0 <= choice < |ReportShelters()|;
      connectedShelter := Some(ReportShelters()[choice]);
      submitted := true;
      isSubmitting := false;
    }
  }
}
