/** service/impl/TimeEntryServiceImpl.java: recording hours against a client
    (and optionally a project), and listing them. */
module TimeEntryService {
  import opened Wrappers
  import opened Exceptions
  import opened Entities
  import opened Store

  /** TimeEntryCreateDTO; the project is optional. */
  datatype TimeEntryRequest = TimeEntryRequest(
    description: string,
    hours: Int32,
    hourlyRate: Money,
    date: Date,
    clientId: Id,
    projectId: Option<Id>)

  /** TimeEntryResponseDTO. */
  datatype TimeEntryView = TimeEntryView(
    id: Id,
    description: string,
    hours: Int32,
    hourlyRate: Money,
    date: Date,
    clientName: string,
    projectName: Option<string>)

  /** `projectId != null ? findById(projectId).orElse(null) : null`: an absent
      or unknown project is no project, not an error. */
  function ProjectRef(projects: map<Id, Project>, projectId: Option<Id>): (r: Option<Id>)
    ensures r.Some? <==> projectId.Some? && projectId.value in projects
    ensures r.Some? ==> r == projectId
  {
    if projectId.Some? && projectId.value in projects then projectId else None
  }

  /** The entry the builder makes: the request's fields, the resolved project,
      no invoice (so it starts unbilled), and whatever owner the caller sets
      (`TimeEntry.builder()` as written sets none). It passes the NOT NULL
      check exactly when an owner is set, and then is stored as built. */
  function NewDraft(dto: TimeEntryRequest, project: Option<Id>, createdBy: Option<string>): (d: EntryDraft)
    ensures d.client == dto.clientId && d.project == project && d.invoice.None? && d.createdBy == createdBy
    ensures CheckNotNull(d).Failure? <==> createdBy.None?
    ensures CheckNotNull(d).Success? ==>
      var e := CheckNotNull(d).value;
      && e.description == dto.description && e.hours == dto.hours && e.hourlyRate == dto.hourlyRate
      && e.date == dto.date && e.client == dto.clientId && e.project == project && e.invoice.None?
      && e.createdBy == createdBy.value
  {
    EntryDraft(dto.description, dto.hours, dto.hourlyRate, dto.date, dto.clientId, project, None, createdBy)
  }

  /** The entry's client and project, when it has one, are stored. */
  predicate Resolvable(e: TimeEntry, clients: map<Id, Client>, projects: map<Id, Project>)
  {
    e.client in clients && (e.project.Some? ==> e.project.value in projects)
  }

  /** mapToDTO: the client's name, and the project's name when there is a project. */
  function MapToDTO(id: Id, e: TimeEntry, clients: map<Id, Client>, projects: map<Id, Project>): (v: TimeEntryView)
    requires Resolvable(e, clients, projects)
    ensures v.id == id && v.description == e.description && v.hours == e.hours
    ensures v.hourlyRate == e.hourlyRate && v.date == e.date && v.clientName == clients[e.client].name
    ensures v.projectName.None? <==> e.project.None? || projects[e.project.value].name.None?
    ensures v.projectName.Some? ==> v.projectName == projects[e.project.value].name
  {
    TimeEntryView(id, e.description, e.hours, e.hourlyRate, e.date, clients[e.client].name,
      if e.project.Some? then projects[e.project.value].name else None)
  }

  /** createTimeEntry with the builder setting `createdBy` to `createdBy`: an
      unknown client fails before anything is built; otherwise the entry is
      built and inserted, and either the insert is refused with nothing
      written or the entry is stored under the next id, unbilled, and
      listed among the client's unbilled entries. */
  method CreateWith(db: Database, dto: TimeEntryRequest, createdBy: Option<string>) returns (r: Result<TimeEntryView, Exception>)
    requires db.Valid()
    modifies db
    ensures db.Valid()
    ensures dto.clientId !in old(db.clients) ==> r == Failure(NoSuchElement) && unchanged(db)
    ensures dto.clientId in old(db.clients) && createdBy.None? ==>
      r == Failure(DataIntegrityViolation(CREATED_BY_COLUMN)) && unchanged(db)
    ensures dto.clientId in old(db.clients) && createdBy.Some? ==>
      var id := old(db.nextEntryId);
      && id !in old(db.timeEntries)
      && id in db.timeEntries && db.timeEntries == old(db.timeEntries)[id := db.timeEntries[id]]
      && DraftOf(db.timeEntries[id]) == NewDraft(dto, ProjectRef(db.projects, dto.projectId), createdBy)
      && db.nextEntryId == id + 1
      && db.invoices == old(db.invoices) && db.items == old(db.items)
      && db.clients == old(db.clients) && db.projects == old(db.projects)
      && db.nextInvoiceId == old(db.nextInvoiceId) && db.nextItemId == old(db.nextItemId)
      && db.nextClientId == old(db.nextClientId) && db.nextProjectId == old(db.nextProjectId)
      && id in UnbilledIds(db.timeEntries, dto.clientId, db.nextEntryId)
      && r == Success(MapToDTO(id, db.timeEntries[id], db.clients, db.projects))
  {
    if dto.clientId !in db.clients {
      return Failure(NoSuchElement);
    }
    var project := ProjectRef(db.projects, dto.projectId);
    var draft := NewDraft(dto, project, createdBy);
    var saved := db.InsertTimeEntry(draft);
    if saved.Failure? {
      return Failure(saved.error);
    }
    var id := saved.value;
    r := Success(MapToDTO(id, db.timeEntries[id], db.clients, db.projects));
  }

  /** createTimeEntry as written: the builder never sets `createdBy`, so the
      INSERT of the NOT NULL column is refused and nothing is written; no
      request can succeed. */
  method CreateTimeEntryAsWritten(db: Database, dto: TimeEntryRequest) returns (r: Result<TimeEntryView, Exception>)
    requires db.Valid()
    modifies db
    ensures db.Valid() && unchanged(db)
    ensures r.Failure?
    ensures r.error == NoSuchElement <==> dto.clientId !in old(db.clients)
    ensures dto.clientId in old(db.clients) ==> r.error == DataIntegrityViolation(CREATED_BY_COLUMN)
  {
    r := CreateWith(db, dto, None);
  }

  /** createTimeEntry with the owner set to the caller: an unknown client
      fails with nothing saved; otherwise the entry is saved under the next
      id, owned by the caller, unbilled, and listed among the client's
      unbilled entries, with every other table and counter as it was. */
  method CreateTimeEntry(db: Database, dto: TimeEntryRequest, username: string) returns (r: Result<TimeEntryView, Exception>)
    requires db.Valid()
    modifies db
    ensures db.Valid()
    ensures dto.clientId !in old(db.clients) ==> r == Failure(NoSuchElement) && unchanged(db)
    ensures dto.clientId in old(db.clients) ==>
      var id := old(db.nextEntryId);
      && id !in old(db.timeEntries)
      && id in db.timeEntries && db.timeEntries == old(db.timeEntries)[id := db.timeEntries[id]]
      && DraftOf(db.timeEntries[id]) == NewDraft(dto, ProjectRef(db.projects, dto.projectId), Some(username))
      && db.timeEntries[id].createdBy == username
      && db.nextEntryId == id + 1
      && db.invoices == old(db.invoices) && db.items == old(db.items)
      && db.clients == old(db.clients) && db.projects == old(db.projects)
      && db.nextInvoiceId == old(db.nextInvoiceId) && db.nextItemId == old(db.nextItemId)
      && db.nextClientId == old(db.nextClientId) && db.nextProjectId == old(db.nextProjectId)
      && id in UnbilledIds(db.timeEntries, dto.clientId, db.nextEntryId)
      && r == Success(MapToDTO(id, db.timeEntries[id], db.clients, db.projects))
  {
    r := CreateWith(db, dto, Some(username));
  }

  /** The listed entries as responses, in the listed order. */
  function EntryViews(entries: map<Id, TimeEntry>, clients: map<Id, Client>, projects: map<Id, Project>, ids: seq<Id>)
    : (r: seq<TimeEntryView>)
    requires forall i :: 0 <= i < |ids| ==> ids[i] in entries && Resolvable(entries[ids[i]], clients, projects)
    ensures |r| == |ids|
    ensures forall i :: 0 <= i < |ids| ==> r[i] == MapToDTO(ids[i], entries[ids[i]], clients, projects)
  {
    seq(|ids|, i requires 0 <= i < |ids| && ids[i] in entries && Resolvable(entries[ids[i]], clients, projects) =>
      MapToDTO(ids[i], entries[ids[i]], clients, projects))
  }

  /** findAll(), ascending. */
  function AllEntryIds(entries: map<Id, TimeEntry>, hi: int): (ids: seq<Id>)
    ensures forall k :: k in ids <==> 0 <= k < hi && k in entries
    ensures forall i, j :: 0 <= i < j < |ids| ==> ids[i] < ids[j]
  {
    IdsWhere(entries, (e: TimeEntry) => true, hi)
  }

  /** getAllTimeEntries: one response per stored entry, whoever created it, in id order. */
  function GetAllTimeEntries(db: Database): (r: seq<TimeEntryView>)
    requires db.Valid()
    reads db
    ensures var ids := AllEntryIds(db.timeEntries, db.nextEntryId);
      && |r| == |ids|
      && (forall i :: 0 <= i < |ids| ==> r[i] == MapToDTO(ids[i], db.timeEntries[ids[i]], db.clients, db.projects))
      && (forall k :: k in db.timeEntries <==> k in ids)
  {
    var ids := AllEntryIds(db.timeEntries, db.nextEntryId);
    assert forall k :: k in db.timeEntries ==> EntryLinked(db.timeEntries[k], db.invoices, db.clients, db.projects);
    EntryViews(db.timeEntries, db.clients, db.projects, ids)
  }

  /** getUnbilledEntriesByClient: one response per unbilled entry of the
      client, in id order, with no filter on who created it. */
  function GetUnbilledEntriesByClient(db: Database, clientId: Id): (r: seq<TimeEntryView>)
    requires db.Valid()
    reads db
    ensures var ids := UnbilledIds(db.timeEntries, clientId, db.nextEntryId);
      && |r| == |ids|
      && (forall i :: 0 <= i < |ids| ==> r[i] == MapToDTO(ids[i], db.timeEntries[ids[i]], db.clients, db.projects))
      && (forall k :: k in ids <==> k in db.timeEntries && db.timeEntries[k].client == clientId && db.timeEntries[k].invoice.None?)
  {
    var ids := UnbilledIds(db.timeEntries, clientId, db.nextEntryId);
    assert forall k :: k in db.timeEntries ==> EntryLinked(db.timeEntries[k], db.invoices, db.clients, db.projects);
    EntryViews(db.timeEntries, db.clients, db.projects, ids)
  }

  /** Entries of every creator are listed: two entries of the same client by
      different users are both unbilled entries of that client. */
  lemma UnbilledIgnoresCreator(db: Database, clientId: Id, a: Id, b: Id)
    requires db.Valid()
    requires a in db.timeEntries && b in db.timeEntries && db.timeEntries[a].createdBy != db.timeEntries[b].createdBy
    requires db.timeEntries[a].client == clientId && db.timeEntries[a].invoice.None?
    requires db.timeEntries[b].client == clientId && db.timeEntries[b].invoice.None?
    ensures var r := GetUnbilledEntriesByClient(db, clientId);
      (exists i :: 0 <= i < |r| && r[i].id == a) && (exists j :: 0 <= j < |r| && r[j].id == b)
  {
    var ids := UnbilledIds(db.timeEntries, clientId, db.nextEntryId);
    var r := GetUnbilledEntriesByClient(db, clientId);
    assert a in ids && b in ids;
    var i :| 0 <= i < |ids| && ids[i] == a;
    var j :| 0 <= j < |ids| && ids[j] == b;
    assert r[i].id == a && r[j].id == b;
  }
}
