/** What the functions of History come to, record by record and with the limits written out. */
module HistoryMeaning {
  import opened Messages
  import opened Stores
  import opened CompanyGroups
  import opened History
  import opened GatewayProtocol

  /** A worker run that commits. It attempts a record that is neither delivered, in progress, flagged,
      held back, nor waiting for its primary, and that has an attempt left; without one it closes the
      record. An attempt is counted, and delivers exactly when everything up to the request allows it
      and the gateway answers with ids; else it fails, to be retried after 30, 120, then 600 seconds.
      A delivered primary leaves no copy waiting. Nothing else changes. */
  lemma WorkedExactly(rows: seq<Row>, i: nat, now: int, later: int, c: Conditions)
    requires i < |rows|
    ensures var r, after := rows[i], Worked(rows, i, now, later, c);
      var primary := r.identity.copyOf;
      var delivered := r.status == Submitted || r.status == Acknowledged;
      var limit := if r.maxRetries > 0 then r.maxRetries + 1 else 1;
      var open := !delivered && r.status != Processing && !r.flagged
        && (primary.Some? ==> primary.value < |rows| && rows[primary.value].status in {Submitted, Acknowledged});
      var held := r.status == Failed && r.nextRetryAt.Some? && r.nextRetryAt.value > now;
      var attempts := open && r.retryCount < limit && !held;
      var sends := c.settings.enabled && c.pdfIntact && r.identity.content.provider != UnsupportedTransport
        && (r.identity.group ==> CopyGranted(rows, r, c.settings, c.rights(r.identity.content.owner)));
      var sent := attempts && sends && c.reply.Some? && c.reply.value.Sent?;
      var uncertain := sends && c.reply == Some(Refused(true));
      && |after| == |rows|
      && after[i] == (
           if sent then
             r.(status := Submitted, retryCount := r.retryCount + 1, nextRetryAt := None,
                messageIds := Some(c.reply.value.ids))
           else if attempts then
             var wait := if r.retryCount == 0 then 30 else if r.retryCount == 1 then 120 else 600;
             r.(status := Failed, retryCount := r.retryCount + 1, flagged := uncertain,
                nextRetryAt := if !uncertain && r.retryCount + 1 < limit then Some(later + wait) else None)
           else if open && r.retryCount >= limit then r.(status := Failed, nextRetryAt := None)
           else r)
      && forall j | 0 <= j < |rows| && j != i ::
           after[j] == if (sent || delivered) && !r.identity.group && rows[j].identity.copyOf == Some(i)
                          && (rows[j].status == Waiting || rows[j].status == Queued)
                       then rows[j].(status := Queued) else rows[j]
  {
    hide CheckCopy;
    ClaimKeepsCheck(rows, i, c);
  }

  lemma ClaimKeepsCheck(rows: seq<Row>, i: nat, c: Conditions)
    requires i < |rows|
    ensures CopyGranted(rows, Claimed(rows[i]), c.settings, c.rights(rows[i].identity.content.owner))
         == CopyGranted(rows, rows[i], c.settings, c.rights(rows[i].identity.content.owner))
  {
  }

  /** A copy may be sent exactly when its primary has been delivered and is an ordinary record with the
      same content, its owner is an enabled user who still may send, the company's group is still the
      copy's recipient, and the source is unchanged. */
  lemma CopyGrantedExactly(r: Row, primary: Row, settings: Settings, access: Access)
    ensures var delivered := primary.status == Submitted || primary.status == Acknowledged;
      && (CheckCopy(r, primary, settings, access) == PrimaryNotReady <==> !delivered)
      && (CheckCopy(r, primary, settings, access) == Granted <==>
            && delivered && !primary.identity.group && primary.identity.copyOf == None
            && r.identity.content == primary.identity.content
            && r.identity.content.owner != "Guest" && access.ownerEnabled && access.maySend
            && ConfiguredGroup(settings, r.identity.content.company, access.companyReadable)
               == Configured(r.identity.recipient)
            && access.sourceUnchanged)
  {
  }

  /** A delivery is accepted exactly when the connector is enabled, its key is unused, its references
      are complete, and the company's group, if one is configured, is usable and the copy's key unused
      too. It adds the primary, with the draft's recipient, file and content under the site's provider,
      and for a configured group the waiting copy of it. */
  lemma StoredExactly(rows: seq<Row>, d: Draft, settings: Settings, readable: bool, keys: (string, string))
    ensures var stored := Stored(rows, d, settings, readable, keys);
      var c, group := d.content, ConfiguredGroup(settings, d.content.company, readable);
      var content := Content(c.owner, c.company, settings.provider, c.referenceType, c.referenceDoctype,
        c.referenceName, c.reportName, c.reportFilters, c.sourceModified, c.pdf, c.messageText, c.printFormat,
        c.messageTemplate);
      var retries := match settings.retries case Some(n) => n case None => 0;
      var primary := Row(Identity(false, None, keys.0, d.recipient, d.filename, content),
                         Queued, 0, retries, None, false, None);
      && (stored.Some? <==>
            && settings.enabled
            && (c.referenceType == "Document" ==> c.referenceDoctype != "" && c.referenceName != "")
            && (c.referenceType == "Report" ==> c.reportName != "")
            && (forall r | r in rows :: r.identity.key != keys.0)
            && match group
               case NoGroup => true
               case Configured(_) => keys.1 != keys.0 && forall r | r in rows :: r.identity.key != keys.1
               case _ => false)
      && (stored.Some? && group == NoGroup ==> stored.value == rows + [primary])
      && (stored.Some? && group.Configured? ==>
            stored.value == rows + [primary,
              Row(Identity(true, Some(|rows|), keys.1, group.groupId, d.filename, content),
                  Waiting, 0, retries, None, false, None)])
  {
    hide ConfiguredGroup;
    KeyUnused(rows, keys.0);
    var primary := NewRow(d, settings, None, d.recipient, keys.0);
    KeyUnused(rows + [primary], keys.1);
    KeyUnused(rows, keys.1);
    var group := ConfiguredGroup(settings, d.content.company, readable);
    if group.Configured? {
      var copy := NewRow(d, settings, Some(|rows|), group.groupId, keys.1);
      assert rows + [primary] + [copy] == rows + [primary, copy];
    }
  }

  lemma KeyUnused(rows: seq<Row>, key: string)
    ensures IndexOf(rows, key).None? <==> forall r | r in rows :: r.identity.key != key
  {
    match IndexOf(rows, key)
    case Some(i) => assert rows[i] in rows;
    case None =>
  }

  /** The record is the only one with its key. */
  predicate Alone(rows: seq<Row>, i: nat) {
    i < |rows| && forall j | 0 <= j < |rows| && j != i :: rows[j].identity.key != rows[i].identity.key
  }

  /** The last event for the key. */
  predicate LastAt(events: seq<Event>, x: nat, key: string) {
    x < |events| && events[x].key == key && forall y | x < y < |events| :: events[y].key != key
  }

  lemma {:induction false} PageKeepsRest(rows: seq<Row>, events: seq<Event>)
    ensures forall i | 0 <= i < |rows| ::
      ApplyEvents(rows, events)[i] == rows[i].(status := ApplyEvents(rows, events)[i].status)
  {
    if events == [] {
    } else {
      PageKeepsRest(rows, events[..|events| - 1]);
    }
  }

  lemma OneEvent(rows: seq<Row>, e: Event, i: nat)
    requires Alone(rows, i)
    ensures ApplyEvents(rows, []) == rows
    ensures var later := ApplyEvent(rows, e);
      |later| == |rows| && later[i] == if e.key == rows[i].identity.key then rows[i].(status := e.status) else rows[i]
  {
  }

  /** A page gives a record the status of the last event for its key. */
  lemma {:induction false} LastEventCounts(rows: seq<Row>, events: seq<Event>, i: nat, x: nat)
    requires Alone(rows, i) && LastAt(events, x, rows[i].identity.key)
    ensures ApplyEvents(rows, events)[i] == rows[i].(status := events[x].status)
  {
    hide ApplyEvent;
    var last := |events| - 1;
    PageKeepsRest(rows, events[..last]);
    OneEvent(ApplyEvents(rows, events[..last]), events[last], i);
    if x < last {
      LastEventCounts(rows, events[..last], i, x);
    }
  }

  /** Without an event for its key a record stays as it is. */
  lemma {:induction false} NoEventLeaves(rows: seq<Row>, events: seq<Event>, i: nat)
    requires Alone(rows, i) && forall x | 0 <= x < |events| :: events[x].key != rows[i].identity.key
    ensures ApplyEvents(rows, events)[i] == rows[i]
  {
    hide ApplyEvent;
    if events == [] {
    } else {
      var last := |events| - 1;
      PageKeepsRest(rows, events[..last]);
      OneEvent(ApplyEvents(rows, events[..last]), events[last], i);
      NoEventLeaves(rows, events[..last], i);
    }
  }

  /** The cursor ends at the highest id, or where it was. */
  lemma {:induction false} AdvancedExactly(cursor: nat, events: seq<Event>)
    ensures var later := Advanced(cursor, events);
      && later >= cursor && (forall e | e in events :: later >= e.id)
      && (later != cursor ==> exists e | e in events :: e.id == later)
  {
    if events == [] {
    } else {
      var front, last := events[..|events| - 1], events[|events| - 1];
      AdvancedExactly(cursor, front);
      assert last in events && forall e | e in front :: e in events;
      assert forall e | e in events :: e in front || e == last;
    }
  }
}
