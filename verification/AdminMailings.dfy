/** Creating mailings: at once, or one scheduled row per time zone of the audience. */
module AdminMailings {
  import opened Options
  import opened Subscriptions
  import opened Audiences

  datatype Template = Template(active: bool, variables: set<string>)

  datatype Status = Sending | Scheduled

  datatype Mailing = Mailing(id: string, template: string, filter: Filter, payload: map<string, string>,
                             status: Status, at: Option<int>, author: string)

  datatype PendingMailing = PendingMailing(id: string, template: string, filter: Filter, payload: map<string, string>)

  datatype Outcome = TemplateNotFound | InvalidPayload(unknown: set<string>) | PublishFailed
      | Created(rows: seq<Mailing>)

  datatype Order = Order(template: string, filter: Filter, payload: map<string, string>, author: string)

  /** `utc` gives the moment of the local time in a zone, and nothing for an unknown zone. */
  function LocalToUtc(utc: string -> Option<int>, zone: string, now: int): Option<int> {
    match utc(zone)
    case None => None
    case Some(at) => if at <= now then None else Some(at)
  }

  /** A zone that gets a row. The clock is read once per zone. */
  predicate Usable(utc: string -> Option<int>, clock: string -> int, zone: string) {
    utc(zone).Some? && clock(zone) < utc(zone).value
  }

  function RowFor(o: Order, id: string, zone: string, at: int): Mailing {
    Mailing(id, o.template, Bucket(o.filter, zone), o.payload, Scheduled, Some(at), o.author)
  }

  function Rows(o: Order, zones: seq<string>, ids: seq<string>, utc: string -> Option<int>,
                clock: string -> int): seq<Mailing>
    requires |zones| <= |ids|
  {
    if zones == [] then []
    else
      var n := |zones| - 1;
      var zone := zones[n];
      var at := LocalToUtc(utc, zone, clock(zone));
      Rows(o, zones[..n], ids, utc, clock) + (if at.Some? then [RowFor(o, ids[n], zone, at.value)] else [])
  }

  ghost predicate Lists(zones: seq<string>, all: set<string>) {
    (forall zone :: zone in zones <==> zone in all) && (forall i, j :: 0 <= i < j < |zones| ==> zones[i] != zones[j])
  }

  ghost predicate HasRow(rows: seq<Mailing>, i: nat, zone: string) {
    i < |rows| && rows[i].filter.timezone == Some(zone)
  }

  /** The row has the identifier that was drawn for its zone. */
  predicate OwnId(row: Mailing, zones: seq<string>, ids: seq<string>)
    requires |zones| <= |ids|
  {
    exists n | 0 <= n < |zones| :: row.filter.timezone == Some(zones[n]) && row.id == ids[n]
  }

  /** Two rows never share an identifier if none was drawn twice. */
  lemma {:induction false} OwnIds(o: Order, zones: seq<string>, ids: seq<string>, utc: string -> Option<int>,
                                  clock: string -> int)
    requires |zones| <= |ids|
    ensures forall row <- Rows(o, zones, ids, utc, clock) :: OwnId(row, zones, ids)
  {
    if zones != [] {
      var n := |zones| - 1;
      OwnIds(o, zones[..n], ids, utc, clock);
      forall row <- Rows(o, zones, ids, utc, clock) ensures OwnId(row, zones, ids) {
        if row in Rows(o, zones[..n], ids, utc, clock) {
          assert OwnId(row, zones[..n], ids);
          var m :| 0 <= m < n && row.filter.timezone == Some(zones[..n][m]) && row.id == ids[m];
          assert row.filter.timezone == Some(zones[m]);
        } else {
          assert row.filter.timezone == Some(zones[n]) && row.id == ids[n];
        }
      }
    }
  }

  predicate InZones(row: Mailing, zones: seq<string>, o: Order, utc: string -> Option<int>, clock: string -> int) {
    && row.filter.timezone.Some? && row.filter.timezone.value in zones
    && row.filter == Bucket(o.filter, row.filter.timezone.value)
    && Usable(utc, clock, row.filter.timezone.value)
    && row.status == Scheduled && row.at == utc(row.filter.timezone.value)
    && row.template == o.template && row.payload == o.payload && row.author == o.author
  }

  ghost predicate Apart(rows: seq<Mailing>) {
    forall i, j :: 0 <= i < j < |rows| ==> rows[i].filter.timezone != rows[j].filter.timezone
  }

  /** Every row stands for a usable zone, every usable zone has a row, and no two rows share
      a zone. */
  lemma {:induction false} OneRowPerZone(o: Order, zones: seq<string>, ids: seq<string>, utc: string -> Option<int>,
                                         clock: string -> int)
    requires |zones| <= |ids| && forall i, j :: 0 <= i < j < |zones| ==> zones[i] != zones[j]
    ensures var rows := Rows(o, zones, ids, utc, clock);
            && (forall i :: 0 <= i < |rows| ==> InZones(rows[i], zones, o, utc, clock))
            && (forall zone <- zones :: Usable(utc, clock, zone) ==> exists i: nat :: HasRow(rows, i, zone))
            && Apart(rows)
  {
    if zones != [] {
      var n := |zones| - 1;
      var before := Rows(o, zones[..n], ids, utc, clock);
      var rows := Rows(o, zones, ids, utc, clock);
      OneRowPerZone(o, zones[..n], ids, utc, clock);
      forall i | 0 <= i < |rows| ensures InZones(rows[i], zones, o, utc, clock) {
        if i < |before| { assert InZones(before[i], zones[..n], o, utc, clock); }
      }
      forall zone <- zones | Usable(utc, clock, zone) ensures exists i: nat :: HasRow(rows, i, zone) {
        if zone in zones[..n] {
          var i: nat :| HasRow(before, i, zone);
          assert HasRow(rows, i, zone);
        } else {
          assert HasRow(rows, |before|, zone);
        }
      }
      assert zones[n] !in zones[..n];
      assert forall i :: 0 <= i < |before| ==> InZones(before[i], zones[..n], o, utc, clock);
    }
  }

  ghost predicate Reaches(db: Db, rows: seq<Mailing>, i: nat, user: string, now: int) {
    i < |rows| && user in Audience(db, rows[i].filter, now)
  }

  /** A scheduled mailing reaches each member of its audience by exactly one row if the
      local time is still to come in the member's zone, and by none otherwise; it reaches
      nobody else. */
  lemma ScheduledOnce(db: Db, o: Order, zones: seq<string>, ids: seq<string>, utc: string -> Option<int>,
                      clock: string -> int,
                      user: string, now: int)
    requires |zones| <= |ids| && Lists(zones, DistinctZones(db, o.filter, now))
    ensures var rows := Rows(o, zones, ids, utc, clock);
            && (forall i: nat, j: nat :: Reaches(db, rows, i, user, now) && Reaches(db, rows, j, user, now) ==> i == j)
            && ((exists i: nat :: Reaches(db, rows, i, user, now)) <==>
                user in Audience(db, o.filter, now) && Usable(utc, clock, ZoneOf(db.users[user])))
  {
    var rows := Rows(o, zones, ids, utc, clock);
    OneRowPerZone(o, zones, ids, utc, clock);
    BucketsPartition(db, o.filter, now);
    forall i: nat | Reaches(db, rows, i, user, now)
      ensures user in Audience(db, o.filter, now) && HasRow(rows, i, ZoneOf(db.users[user]))
          && Usable(utc, clock, ZoneOf(db.users[user]))
    {
      assert InZones(rows[i], zones, o, utc, clock);
    }
    if user in Audience(db, o.filter, now) && Usable(utc, clock, ZoneOf(db.users[user])) {
      var i: nat :| HasRow(rows, i, ZoneOf(db.users[user]));
      assert InZones(rows[i], zones, o, utc, clock);
      assert Reaches(db, rows, i, user, now);
    }
  }

  // ---------- The service ----------

  class AdminMailingService {
    var templates: map<string, Template>
    var mailings: seq<Mailing>
    var published: seq<PendingMailing>

    constructor (templates: map<string, Template>)
      ensures this.templates == templates && mailings == [] && published == []
    {
      this.templates := templates;
      mailings := [];
      published := [];
    }

    /** Nothing is written unless template and payload are in order; an immediate mailing is
        published before it is written. */
    method Create(o: Order, scheduled: bool, zones: seq<string>, ids: seq<string>, utc: string -> Option<int>,
                  clock: string -> int,
                  kafkaUp: bool) returns (r: Outcome)
      requires |zones| <= |ids| && 0 < |ids|
      modifies this
      ensures templates == old(templates)
      ensures r.TemplateNotFound? <==> !(o.template in templates && templates[o.template].active)
      ensures r.InvalidPayload? ==> r.unknown == o.payload.Keys - templates[o.template].variables && r.unknown != {}
      ensures r.PublishFailed? || r.Created? ==> o.payload.Keys <= templates[o.template].variables
      ensures r.PublishFailed? ==> !scheduled && !kafkaUp
      ensures r.Created? ==> mailings == old(mailings) + r.rows
      ensures r.Created? && scheduled ==> r.rows == Rows(o, zones, ids, utc, clock) && published == old(published)
      ensures r.Created? && !scheduled ==>
                && r.rows == [Mailing(ids[0], o.template, o.filter, o.payload, Sending, None, o.author)]
                && published == old(published) + [PendingMailing(ids[0], o.template, o.filter, o.payload)]
      ensures !r.Created? ==> mailings == old(mailings) && published == old(published)
    {
      if o.template !in templates || !templates[o.template].active {
        return TemplateNotFound;
      }
      var unknown := o.payload.Keys - templates[o.template].variables;
      if unknown != {} {
        return InvalidPayload(unknown);
      }
      assert forall k :: k in o.payload.Keys ==> k !in unknown;
      if scheduled {
        var rows := CreateBucketed(o, zones, ids, utc, clock);
        return Created(rows);
      }
      var sent := PublishPending(ids[0], o, kafkaUp);
      if !sent {
        return PublishFailed;
      }
      var row := Mailing(ids[0], o.template, o.filter, o.payload, Sending, None, o.author);
      mailings := mailings + [row];
      return Created([row]);
    }

    method CreateBucketed(o: Order, zones: seq<string>, ids: seq<string>, utc: string -> Option<int>,
                          clock: string -> int)
      returns (rows: seq<Mailing>)
      requires |zones| <= |ids|
      modifies this`mailings
      ensures rows == Rows(o, zones, ids, utc, clock) && mailings == old(mailings) + rows
    {
      rows := [];
      for n := 0 to |zones|
        invariant rows == Rows(o, zones[..n], ids, utc, clock)
      {
        var zone := zones[n];
        var at := LocalToUtc(utc, zone, clock(zone));
        assert zones[..n + 1][..n] == zones[..n];
        if at.Some? {
          rows := rows + [RowFor(o, ids[n], zone, at.value)];
        }
      }
      assert zones[..|zones|] == zones;
      if rows == [] {
        return;
      }
      mailings := mailings + rows;
    }

    method PublishPending(id: string, o: Order, kafkaUp: bool) returns (sent: bool)
      modifies this`published
      ensures sent == kafkaUp
      ensures published == old(published) + (if sent then [PendingMailing(id, o.template, o.filter, o.payload)] else [])
    {
      if kafkaUp {
        published := published + [PendingMailing(id, o.template, o.filter, o.payload)];
      }
      return kafkaUp;
    }
  }
}
