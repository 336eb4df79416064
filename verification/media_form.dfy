/** The create/edit form (`src/components/MediaFormModal.tsx`): form state,
    the multipart payload, and what a submission does. */
module MediaForm {
  import opened Types

  /** The seven text fields of `formData`. */
  datatype Fields = Fields(
    title: string,
    kind: MediaType,
    director: string,
    budget: string,
    location: string,
    duration: string,
    year: string)

  /** A file picked in the file input, as an opaque value. */
  datatype File = File(name: string, bytes: seq<bv8>)

  datatype Form = Form(fields: Fields, posterFile: Option<File>, preview: string, isLoading: bool)

  const BlankFields: Fields := Fields("", Movie, "", "", "", "", "")

  /** The component's state when it is first rendered. */
  const Initial: Form := Form(BlankFields, None, "", false)

  /** `resetForm`: blank fields, type "Movie", no file, empty preview;
      `isLoading` is not its business. */
  function ResetForm(f: Form): (r: Form)
    ensures r.fields.title == "" && r.fields.director == "" && r.fields.kind == Movie
    ensures r.fields.budget == "" && r.fields.location == "" && r.fields.duration == "" && r.fields.year == ""
    ensures r.posterFile.None? && r.preview == ""
    ensures r.isLoading == f.isLoading
  {
    Form(BlankFields, None, "", f.isLoading)
  }

  /** `editMedia.x || ""`. */
  function OrEmpty(o: Option<string>): string {
    o.GetOr("")
  }

  /** The effect run on open: copy the edited record in, or reset. The
      chosen file is not cleared when a record is copied in. */
  function Populate(f: Form, editMedia: Option<Media>): (r: Form)
    ensures editMedia.None? ==> r == ResetForm(f)
    ensures editMedia.Some? ==>
              && r.fields.title == editMedia.value.title
              && r.fields.kind == editMedia.value.kind
              && r.fields.director == editMedia.value.director
              && r.preview == OrEmpty(editMedia.value.imageUrl)
              && r.posterFile == f.posterFile && r.isLoading == f.isLoading
  {
    match editMedia
    case None => ResetForm(f)
    case Some(m) =>
      var fields := Fields(m.title, m.kind, m.director, OrEmpty(m.budget), OrEmpty(m.location),
                           OrEmpty(m.duration), OrEmpty(m.year));
      f.(fields := fields, preview := OrEmpty(m.imageUrl))
  }

  /** What the file input delivered: nothing, or a file with the data URL
      the reader produced for it. */
  datatype FileEvent = NoFile | Picked(file: File, dataUrl: string)

  /** `handleFileChange`. */
  function HandleFileChange(f: Form, e: FileEvent): (r: Form)
    ensures e.NoFile? ==> r == f
    ensures e.Picked? ==> r == f.(posterFile := Some(e.file), preview := e.dataUrl)
  {
    match e
    case NoFile => f
    case Picked(file, url) => f.(posterFile := Some(file), preview := url)
  }

  /** One `FormData` entry value. */
  datatype Part = Text(text: string) | Blob(file: File)

  /** The `FormData` keys the form writes. */
  datatype Key = TitleKey | TypeKey | DirectorKey | BudgetKey | LocationKey | DurationKey | YearKey | PosterKey

  /** The key as it appears on the wire. */
  function KeyName(k: Key): string {
    match k
    case TitleKey => "title"
    case TypeKey => "type"
    case DirectorKey => "director"
    case BudgetKey => "budget"
    case LocationKey => "location"
    case DurationKey => "duration"
    case YearKey => "year"
    case PosterKey => "poster"
  }

  datatype Entry = Entry(key: Key, part: Part)

  const TextKeys: seq<Key> := [TitleKey, TypeKey, DirectorKey, BudgetKey, LocationKey, DurationKey, YearKey]

  /** The `FormData` `handleSubmit` builds, in append order. */
  function Payload(f: Form): (p: seq<Entry>)
    ensures |p| == |TextKeys| + (if f.posterFile.Some? then 1 else 0)
    ensures forall i :: 0 <= i < |TextKeys| ==> p[i].key == TextKeys[i] && p[i].part.Text?
    ensures f.posterFile.Some? ==> p[|TextKeys|] == Entry(PosterKey, Blob(f.posterFile.value))
  {
    var d := f.fields;
    var text := [
      Entry(TitleKey, Text(d.title)),
      Entry(TypeKey, Text(TypeName(d.kind))),
      Entry(DirectorKey, Text(d.director)),
      Entry(BudgetKey, Text(d.budget)),
      Entry(LocationKey, Text(d.location)),
      Entry(DurationKey, Text(d.duration)),
      Entry(YearKey, Text(d.year))];
    match f.posterFile
    case None => text
    case Some(file) => text + [Entry(PosterKey, Blob(file))]
  }

  /** The keys of a payload as they appear on the wire. */
  function WireKeys(p: seq<Entry>): (ks: seq<string>)
    ensures |ks| == |p|
    ensures forall i :: 0 <= i < |p| ==> ks[i] == KeyName(p[i].key)
  {
    seq(|p|, i requires 0 <= i < |p| => KeyName(p[i].key))
  }

  /** The payload's keys on the wire: the seven text keys in order, then
      `poster` exactly when a file was chosen. */
  lemma PayloadWireKeys(f: Form)
    ensures WireKeys(Payload(f)) ==
              ["title", "type", "director", "budget", "location", "duration", "year"]
              + (if f.posterFile.Some? then ["poster"] else [])
  {
  }

  /** The value of the first entry under `key`. */
  function Lookup(p: seq<Entry>, key: Key): Option<Part>
    decreases |p|
  {
    if p == [] then None
    else if p[0].key == key then Some(p[0].part)
    else Lookup(p[1..], key)
  }

  function TextOf(p: seq<Entry>, key: Key): Option<string> {
    match Lookup(p, key)
    case Some(Text(t)) => Some(t)
    case _ => None
  }

  function ParseType(s: string): Option<MediaType> {
    if s == "Movie" then Some(Movie) else if s == "TV Show" then Some(TvShow) else None
  }

  /** How a receiver reads the form back out of the payload. */
  function DecodePayload(p: seq<Entry>): Option<(Fields, Option<File>)> {
    var title := TextOf(p, TitleKey);
    var kind := TextOf(p, TypeKey);
    var director := TextOf(p, DirectorKey);
    var budget := TextOf(p, BudgetKey);
    var location := TextOf(p, LocationKey);
    var duration := TextOf(p, DurationKey);
    var year := TextOf(p, YearKey);
    if title.None? || kind.None? || director.None? || budget.None? || location.None?
       || duration.None? || year.None? || ParseType(kind.value).None?
    then None
    else
      var file := match Lookup(p, PosterKey) case Some(Blob(b)) => Some(b) case _ => None;
      Some((Fields(title.value, ParseType(kind.value).value, director.value, budget.value,
                   location.value, duration.value, year.value), file))
  }

  /** `Lookup` finds the first entry with the key. */
  lemma {:induction false} LookupFirst(p: seq<Entry>, key: Key, i: int)
    requires 0 <= i < |p| && p[i].key == key
    requires forall j :: 0 <= j < i ==> p[j].key != key
    ensures Lookup(p, key) == Some(p[i].part)
    decreases i
  {
    if i > 0 {
      LookupFirst(p[1..], key, i - 1);
    }
  }

  lemma {:induction false} LookupMissing(p: seq<Entry>, key: Key)
    requires forall j :: 0 <= j < |p| ==> p[j].key != key
    ensures Lookup(p, key) == None
    decreases |p|
  {
    if p != [] {
      LookupMissing(p[1..], key);
    }
  }

  /** The payload carries the whole form: every field, empty ones included,
      and the poster exactly when a file was chosen. */
  lemma PayloadRoundTrip(f: Form)
    ensures DecodePayload(Payload(f)) == Some((f.fields, f.posterFile))
  {
    var p := Payload(f);
    var d := f.fields;
    LookupFirst(p, TitleKey, 0);
    LookupFirst(p, TypeKey, 1);
    LookupFirst(p, DirectorKey, 2);
    LookupFirst(p, BudgetKey, 3);
    LookupFirst(p, LocationKey, 4);
    LookupFirst(p, DurationKey, 5);
    LookupFirst(p, YearKey, 6);
    assert ParseType(TypeName(d.kind)) == Some(d.kind);
    if f.posterFile.Some? {
      LookupFirst(p, PosterKey, 7);
    } else {
      LookupMissing(p, PosterKey);
    }
  }

  /** A picked file is what the next submission uploads as `poster`, with
      the text fields untouched; an empty selection leaves the payload as
      it was. */
  lemma PickedFileIsSent(f: Form, file: File, dataUrl: string)
    ensures DecodePayload(Payload(HandleFileChange(f, Picked(file, dataUrl)))) == Some((f.fields, Some(file)))
    ensures Payload(HandleFileChange(f, NoFile)) == Payload(f)
  {
    PayloadRoundTrip(HandleFileChange(f, Picked(file, dataUrl)));
  }

  /** Submitting an untouched edit form sends the record's own fields,
      missing optional ones as empty strings. */
  lemma UntouchedEditResendsRecord(f: Form, m: Media)
    ensures var d := DecodePayload(Payload(Populate(f, Some(m))));
            && d.Some?
            && d.value.0 == Fields(m.title, m.kind, m.director, OrEmpty(m.budget), OrEmpty(m.location),
                                   OrEmpty(m.duration), OrEmpty(m.year))
  {
    PayloadRoundTrip(Populate(f, Some(m)));
  }

  /** The save request: create, or update of the edited record's id. */
  datatype SaveCall = Create(payload: seq<Entry>) | Update(id: int, payload: seq<Entry>)

  /** The parent's callbacks, in the order they are invoked. */
  datatype Callback = OnSuccess | OnClose

  /** The form while the request is in flight, the request, the callbacks
      invoked, and the form once the submission settled. */
  datatype Submission = Submission(inFlight: Form, calls: seq<SaveCall>, callbacks: seq<Callback>, after: Form)

  /** `handleSubmit`. */
  function Submit(f: Form, editMedia: Option<Media>, outcome: Outcome<()>): (r: Submission)
    ensures r.inFlight.isLoading && !r.after.isLoading
    ensures editMedia.Some? ==> r.calls == [Update(editMedia.value.id, Payload(f))]
    ensures editMedia.None? ==> r.calls == [Create(Payload(f))]
    ensures outcome.Ok? ==> r.callbacks == [OnSuccess, OnClose] && r.after == ResetForm(f).(isLoading := false)
    ensures outcome.Failed? ==> r.callbacks == [] && r.after == f.(isLoading := false)
  {
    var loading := f.(isLoading := true);
    var data := Payload(f);
    var call := if editMedia.Some? then Update(editMedia.value.id, data) else Create(data);
    match outcome
    case Ok(_) => Submission(loading, [call], [OnSuccess, OnClose], ResetForm(loading).(isLoading := false))
    case Failed => Submission(loading, [call], [], loading.(isLoading := false))
  }

  /** After a failed save the user's input is still there to resubmit,
      and resubmitting sends the same payload. */
  lemma FailedSaveKeepsInput(f: Form, editMedia: Option<Media>)
    ensures var r := Submit(f, editMedia, Failed);
            && r.after.fields == f.fields && r.after.posterFile == f.posterFile
            && Submit(r.after, editMedia, Ok(())).calls == r.calls
  {
  }

  /** After a successful save the next payload is the blank form's. */
  lemma SuccessfulSaveClearsPayload(f: Form, editMedia: Option<Media>)
    ensures var r := Submit(f, editMedia, Ok(()));
            DecodePayload(Payload(r.after)) == Some((BlankFields, None))
  {
    PayloadRoundTrip(Submit(f, editMedia, Ok(())).after);
  }
}
