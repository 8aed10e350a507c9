/** The chat records as `chat.rs` updates them: each method is one transaction on
    the store. */
module ChatHistory {
  import opened Prelude
  import opened Bytes
  import opened StoreRecords
  import opened ChatModel

  datatype Refused = TakenBySendText | TakenByHistory | NoSuchEntry

  class History {
    var last: nat
    var entries: map<nat, ChatModel.Entry>
    var outgoing: map<AppId, nat>
    var incoming: map<MessageId, nat>
    var claims: set<AppId>

    function Current(): Chat
      reads this
    {
      Chat(last, entries, outgoing, incoming, claims)
    }

    ghost predicate Valid()
      reads this
    {
      Consistent(Current())
    }

    constructor ()
      ensures Valid() && Current() == EMPTY
    {
      last, entries, outgoing, incoming, claims := 0, map[], map[], map[], {};
    }

    /** Records a queued text under the application's id for it, once; an id
        `send_text` took is refused. Returns the entry's number. */
    method QueueText(app: AppId, text: Bytes, sentRaw: bool) returns (r: Result<nat, Refused>)
      requires Valid()
      modifies this
      ensures Valid() && Current() == Apply(old(Current()), Queue(app, text, sentRaw))
      ensures r.Err? <==> app !in old(outgoing) && (sentRaw || app in claims)
      ensures r.Ok? ==> r.value in entries && entries[r.value].outgoing && entries[r.value].app == app
      ensures r.Ok? ==> (entries[r.value].text == text || app in old(outgoing))
    {
      ApplyKeepsConsistent(Current(), Queue(app, text, sentRaw));
      if app in outgoing {
        return Ok(outgoing[app]);
      }
      if sentRaw || app in claims {
        return Err(TakenBySendText);
      }
      var number := last + 1;
      last := number;
      entries := entries[number := ChatModel.Entry(true, Queued, app, None, text)];
      outgoing := outgoing[app := number];
      return Ok(number);
    }

    /** Takes the application id for `send_text`; refused if the history has it. */
    method ClaimForSendText(app: AppId) returns (r: Result<(), Refused>)
      requires Valid()
      modifies this
      ensures Valid() && Current() == Apply(old(Current()), Claim(app))
      ensures r.Ok? <==> app !in outgoing
      ensures r.Ok? ==> app in claims
    {
      ApplyKeepsConsistent(Current(), Claim(app));
      if app in outgoing {
        return Err(TakenByHistory);
      }
      if app !in claims {
        claims := claims + {app};
      }
      return Ok(());
    }

    /** Records a received text once, with the index on its message id. */
    method RecordReceived(id: MessageId, text: Bytes)
      requires Valid()
      modifies this
      ensures Valid() && Current() == Apply(old(Current()), RecordIncoming(id, text))
      ensures id in incoming && incoming[id] in entries && entries[incoming[id]].id == Some(id)
      ensures id !in old(incoming) ==> entries[incoming[id]].text == text && incoming[id] == old(last) + 1
    {
      ApplyKeepsConsistent(Current(), RecordIncoming(id, text));
      if id in incoming {
        return;
      }
      var number := last + 1;
      last := number;
      entries := entries[number := ChatModel.Entry(false, Received, [], Some(id), text)];
      incoming := incoming[id := number];
    }

    /** Moves an entry forward, never back, and records its message if it has none. */
    method AdvanceEntry(number: nat, state: EntryState, id: Option<MessageId>) returns (r: Result<(), Refused>)
      requires Valid() && !state.Received? && !state.Queued?
      modifies this
      ensures Valid() && Current() == Apply(old(Current()), Advance(number, state, id))
      ensures r.Ok? <==> number in entries
      ensures r.Ok? ==>
                var (was, now) := (old(entries)[number], entries[number]);
                && now.state == (if Forward(was.state, state) then state else was.state)
                && now.id == (if was.id.Some? then was.id else id)
                && now.outgoing == was.outgoing && now.app == was.app && now.text == was.text
                && (forall n :: n in entries <==> n in old(entries))
                && (forall n :: n in entries && n != number ==> entries[n] == old(entries)[n])
    {
      ApplyKeepsConsistent(Current(), Advance(number, state, id));
      if number !in entries {
        return Err(NoSuchEntry);
      }
      var e := entries[number];
      var forward := Forward(e.state, state);
      var named := id.Some? && e.id.None?;
      if !forward && !named {
        assert entries[number := Advanced(e, state, id)] == entries;
        return Ok(());
      }
      if forward {
        e := e.(state := state);
      }
      if named {
        e := e.(id := id);
      }
      entries := entries[number := e];
      return Ok(());
    }
  }
}
