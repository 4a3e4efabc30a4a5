/** The lead store of leads/store.py: a JSON list of lead records in one
    file, with case-insensitive e-mail de-duplication and CSV export. The
    file is an abstract state; uuids and timestamps are inputs. */
module Leads {
  import opened Wrappers
  import opened Strings
  import opened Values
  import opened Seqs

  /** What `leads.json` holds: nothing, something `json.loads` rejects (or
      an unreadable file), or a list of lead records. */
  datatype LeadsFile = Missing | Corrupt | Stored(leads: seq<Meta>)

  /** `_load_leads`: a missing or unreadable file is an empty list. */
  function Load(f: LeadsFile): seq<Meta> {
    match f
    case Stored(leads) => leads
    case _ => []
  }

  /** A record as the store writes it: a string `id`, and a string `email`
      whenever there is one. */
  predicate WellFormedLead(m: Meta) {
    "id" in m && m["id"].Str? && ("email" in m ==> m["email"].Str?)
  }

  predicate AllWellFormed(leads: seq<Meta>) {
    forall i :: 0 <= i < |leads| ==> WellFormedLead(leads[i])
  }

  /** `lead.get("email", "")`. */
  function StoredEmail(m: Meta): string {
    match Get(m, "email", Str(""))
    case Str(s) => s
    case _ => ""
  }

  /** `lead.get("email", "").lower() == email.lower()`. */
  function Matches(email: string): Meta -> bool {
    (m: Meta) => Lower(StoredEmail(m)) == Lower(email)
  }

  /** The position `next(...)` stops at: the first matching record. */
  function FirstMatch(leads: seq<Meta>, email: string): Option<nat> {
    FirstIndex(leads, Matches(email))
  }

  /** The record `add` appends: stripped e-mail, name and company (`None`
      read as `""`), the drawn id and the creation time. */
  function NewLead(id: string, email: string, name: Option<string>, company: Option<string>, now: string): (m: Meta)
    ensures WellFormedLead(m) && m.Keys == {"id", "email", "name", "company", "created_at"}
    ensures m["id"] == Str(id) && m["created_at"] == Str(now)
    ensures m["email"] == Str(Strip(email)) && m["name"] == Str(Strip(name.GetOr("")))
    ensures m["company"] == Str(Strip(company.GetOr("")))
  {
    map["id" := Str(id), "email" := Str(Strip(email)), "name" := Str(Strip(name.GetOr(""))),
        "company" := Str(Strip(company.GetOr(""))), "created_at" := Str(now)]
  }

  /** The id `add` returns: the first matching record's, else the new one. */
  function AddedId(leads: seq<Meta>, email: string, newId: string): string
    requires AllWellFormed(leads)
  {
    match FirstMatch(leads, email)
    case Some(k) => leads[k]["id"].s
    case None => newId
  }

  /** The list `add` saves, or `None` when it returns without writing. */
  function Saved(leads: seq<Meta>, email: string, name: Option<string>, company: Option<string>, newId: string, now: string): Option<seq<Meta>> {
    match FirstMatch(leads, email)
    case Some(_) => None
    case None => Some(leads + [NewLead(newId, email, name, company, now)])
  }

  /** The list after `add`. */
  function AfterAdd(leads: seq<Meta>, email: string, name: Option<string>, company: Option<string>, newId: string, now: string): seq<Meta> {
    Saved(leads, email, name, company, newId, now).GetOr(leads)
  }

  /** Adding can only append: the old records stay, in order, and at most
      one new record follows them; stored records stay well formed. */
  lemma AddAppendsAtMostOne(leads: seq<Meta>, email: string, name: Option<string>, company: Option<string>, newId: string, now: string)
    requires AllWellFormed(leads)
    ensures var after := AfterAdd(leads, email, name, company, newId, now);
      AllWellFormed(after) && |leads| <= |after| <= |leads| + 1 && after[..|leads|] == leads
    ensures var after := AfterAdd(leads, email, name, company, newId, now);
      |after| == |leads| + 1 <==> forall j :: 0 <= j < |leads| ==> !Matches(email)(leads[j])
  {
    var after := AfterAdd(leads, email, name, company, newId, now);
    if FirstMatch(leads, email).None? {
      assert after == leads + [NewLead(newId, email, name, company, now)];
      assert after[..|leads|] == leads;
    }
  }

  /** Adding an e-mail without surrounding whitespace a second time returns
      the first call's id and writes nothing. */
  lemma AddTwiceSameId(leads: seq<Meta>, email: string, name: Option<string>, company: Option<string>,
                       id1: string, now1: string, name2: Option<string>, company2: Option<string>, id2: string, now2: string)
    requires AllWellFormed(leads) && Strip(email) == email
    ensures var after := AfterAdd(leads, email, name, company, id1, now1);
      AllWellFormed(after) &&
      Saved(after, email, name2, company2, id2, now2).None? &&
      AddedId(after, email, id2) == AddedId(leads, email, id1)
  {
    AddAppendsAtMostOne(leads, email, name, company, id1, now1);
    if FirstMatch(leads, email).None? {
      var n := NewLead(id1, email, name, company, now1);
      assert StoredEmail(n) == email;
      FirstIndexAppend(leads, n, Matches(email));
    }
  }

  /** An e-mail given with leading whitespace never matches a record whose
      e-mail has none (every record `add` writes): each such call appends
      another record, even for the same address. */
  lemma SpacedEmailNeverMatches(leads: seq<Meta>, email: string, name: Option<string>, company: Option<string>, newId: string, now: string)
    requires |email| > 0 && IsSpace(email[0])
    requires forall j :: 0 <= j < |leads| ==> StoredEmail(leads[j]) == [] || !IsSpace(StoredEmail(leads[j])[0])
    ensures Saved(leads, email, name, company, newId, now) == Some(leads + [NewLead(newId, email, name, company, now)])
    ensures var e := StoredEmail(NewLead(newId, email, name, company, now)); e == [] || !IsSpace(e[0])
  {
    forall j | 0 <= j < |leads|
      ensures !Matches(email)(leads[j])
    {
      var s := StoredEmail(leads[j]);
      if s != [] {
        assert Lower(s)[0] != Lower(email)[0];
      }
    }
    StripShape(email);
  }

  /** The CSV header, `"email,name,company,created_at"`. */
  const Header: string := "email,name,company,created_at"

  /** `headers = ["email", "name", "company", "created_at"]`. */
  const Columns: seq<string> := ["email", "name", "company", "created_at"]

  /** `str(lead.get(h, ""))` for each column. */
  function Fields(lead: Meta): (r: seq<string>)
    ensures |r| == |Columns|
    ensures forall i :: 0 <= i < |r| ==> r[i] == Show(Get(lead, Columns[i], Str("")))
  {
    seq(|Columns|, i requires 0 <= i < |Columns| => Show(Get(lead, Columns[i], Str(""))))
  }

  /** `",".join(...)`: one lead's line, no quoting. */
  function CsvLine(lead: Meta): string {
    Join(Fields(lead), ",")
  }

  function CsvLines(leads: seq<Meta>): (r: seq<string>)
    ensures |r| == |leads|
    ensures forall i :: 0 <= i < |r| ==> r[i] == CsvLine(leads[i])
  {
    seq(|leads|, i requires 0 <= i < |leads| => CsvLine(leads[i]))
  }

  /** What `export_csv` returns for the loaded list. */
  function Csv(leads: seq<Meta>): string {
    if leads == [] then Header + "\n" else Header + "\n" + Join(CsvLines(leads), "\n")
  }

  lemma {:induction false} CountAbsent(s: string, c: char)
    requires forall i :: 0 <= i < |s| ==> s[i] != c
    ensures Count(s, c) == 0
  {
    if s != [] {
      CountAbsent(s[..|s| - 1], c);
    }
  }

  /** A field without a newline gives a line without one. */
  lemma {:induction false} JoinAvoids(parts: seq<string>, sep: string, c: char)
    requires forall i :: 0 <= i < |sep| ==> sep[i] != c
    requires forall i, k :: 0 <= i < |parts| && 0 <= k < |parts[i]| ==> parts[i][k] != c
    ensures forall k :: 0 <= k < |Join(parts, sep)| ==> Join(parts, sep)[k] != c
  {
    if |parts| > 1 {
      JoinAvoids(parts[1..], sep, c);
      var rest := Join(parts[1..], sep);
      assert Join(parts, sep) == parts[0] + sep + rest;
      forall k | 0 <= k < |Join(parts, sep)|
        ensures Join(parts, sep)[k] != c
      {
        if k < |parts[0]| {
          assert Join(parts, sep)[k] == parts[0][k];
        } else if k < |parts[0]| + |sep| {
          assert Join(parts, sep)[k] == sep[k - |parts[0]|];
        } else {
          assert Join(parts, sep)[k] == rest[k - |parts[0]| - |sep|];
        }
      }
    }
  }

  /** When no field holds a newline, the export has exactly one line per
      lead after the header line: one newline for no leads (the trailing one
      after the header) and one per lead otherwise, none at the end. */
  lemma CsvLineCount(leads: seq<Meta>)
    requires forall i, j, k :: 0 <= i < |leads| && 0 <= j < |Columns| && 0 <= k < |Fields(leads[i])[j]| ==>
      Fields(leads[i])[j][k] != '\n'
    ensures Count(Csv(leads), '\n') == if leads == [] then 1 else |leads|
  {
    CountAbsent(Header, '\n');
    CountAppend(Header, "\n", '\n');
    var nl: string := "\n";
    assert nl[..0] == [];
    if leads != [] {
      var lines := CsvLines(leads);
      forall i | 0 <= i < |lines|
        ensures Count(lines[i], '\n') == 0
      {
        JoinAvoids(Fields(leads[i]), ",", '\n');
        CountAbsent(lines[i], '\n');
      }
      JoinCount(lines, '\n');
      CountAppend(Header + "\n", Join(lines, "\n"), '\n');
    }
  }

  class LeadStore {
    /** The content of `leads.json`. */
    var file: LeadsFile

    /** Every stored record is one the store itself writes. */
    predicate Valid()
      reads this
    {
      AllWellFormed(Load(file))
    }

    constructor (existing: LeadsFile)
      requires AllWellFormed(Load(existing))
      ensures Valid() && file == existing
    {
      file := existing;
    }

    /** `add`: the id of the first record whose e-mail matches
        case-insensitively, without writing; else a new record appended and
        saved, and its id. `newId` is the `uuid4()` drawn, `now` the
        `utcnow().isoformat()` stamp. */
    method Add(email: string, name: Option<string>, company: Option<string>, newId: string, now: string) returns (id: string)
      requires Valid()
      modifies this
      ensures Valid()
      ensures id == AddedId(old(Load(file)), email, newId)
      ensures Saved(old(Load(file)), email, name, company, newId, now).None? ==> file == old(file)
      ensures Saved(old(Load(file)), email, name, company, newId, now).Some? ==>
        file == Stored(Saved(old(Load(file)), email, name, company, newId, now).value)
    {
      var leads := Load(file);
      var i := 0;
      while i < |leads|
        invariant 0 <= i <= |leads|
        invariant forall j :: 0 <= j < i ==> !Matches(email)(leads[j])
      {
        var stored := match Get(leads[i], "email", Str("")) case Str(s) => s case _ => "";
        if Lower(stored) == Lower(email) {
          FirstIndexAt(leads, Matches(email), i);
          return leads[i]["id"].s;
        }
        i := i + 1;
      }
      var lead := NewLead(newId, email, name, company, now);
      file := Stored(leads + [lead]);
      id := newId;
    }

    /** `get_all`: the loaded list. */
    method GetAll() returns (leads: seq<Meta>)
      ensures file.Stored? ==> leads == file.leads
      ensures !file.Stored? ==> leads == []
    {
      leads := Load(file);
    }

    /** `export_csv`: the header and a newline when there are no leads, else
        the header line followed by the leads' lines joined by newlines. */
    method ExportCsv() returns (csv: string)
      ensures csv == Csv(Load(file))
      ensures Load(file) == [] ==> csv == "email,name,company,created_at\n"
      ensures Load(file) != [] ==> csv[..|Header| + 1] == Header + "\n"
    {
      var leads := Load(file);
      if leads == [] {
        return Header + "\n";
      }
      var lines := CsvLines(leads);
      csv := Header + "\n" + Join(lines, "\n");
    }
  }
}
