// Per-channel membership.
module ChannelPresence {
  import opened Protocol
  import opened Listing

  type Channels = map<string, map<ClientId, string>>

  function Members(channels: Channels, channel: string): map<ClientId, string> {
    if channel in channels then channels[channel] else map[]
  }

  // Emptied channels disappear.
  function Put(channels: Channels, channel: string, members: map<ClientId, string>): Channels {
    if members == map[] then channels - {channel} else channels[channel := members]
  }

  function Join(channels: Channels, channel: string, id: ClientId, who: string): Channels {
    Put(channels, channel, Members(channels, channel)[id := who])
  }

  function Leave(channels: Channels, channel: string, id: ClientId): Channels {
    if channel in channels then Put(channels, channel, channels[channel] - {id}) else channels
  }

  function Principals(channels: Channels, channel: string): set<string> {
    Members(channels, channel).Values
  }

  lemma JoinMembers(channels: Channels, channel: string, id: ClientId, who: string)
    ensures var after := Join(channels, channel, id, who);
            (forall c :: Members(after, c) == if c == channel then Members(channels, c)[id := who] else Members(channels, c)) &&
            ((forall c <- channels :: channels[c] != map[]) ==> forall c <- after :: after[c] != map[])
  {
    assert id in Members(channels, channel)[id := who];
  }

  lemma LeaveMembers(channels: Channels, channel: string, id: ClientId)
    ensures var after := Leave(channels, channel, id);
            (forall c :: Members(after, c) == if c == channel then Members(channels, c) - {id} else Members(channels, c)) &&
            ((forall c <- channels :: channels[c] != map[]) ==> forall c <- after :: after[c] != map[])
  {
  }

  // Joining and then leaving is the identity for a client that was not in the channel.
  lemma JoinThenLeave(channels: Channels, channel: string, id: ClientId, who: string)
    requires forall c <- channels :: channels[c] != map[]
    requires id !in Members(channels, channel)
    ensures Leave(Join(channels, channel, id, who), channel, id) == channels
  {
    var joined := Join(channels, channel, id, who);
    assert id in Members(channels, channel)[id := who];
    assert joined[channel] - {id} == Members(channels, channel);
  }

  class Presence {
    var channels: Channels

    constructor ()
      ensures channels == map[]
    {
      channels := map[];
    }

    method JoinChannel(channel: string, id: ClientId, who: string) returns (newly: bool)
      modifies this
      ensures channels == Join(old(channels), channel, id, who)
      ensures newly <==> id !in Members(old(channels), channel)
    {
      if channel !in channels {
        channels := channels[channel := map[]];
      }
      var members: map<ClientId, string> := channels[channel];
      newly := id !in members;
      members := members[id := who];
      assert id in members;
      channels := channels[channel := members];
    }

    method LeaveChannel(channel: string, id: ClientId) returns (removed: bool)
      modifies this
      ensures channels == Leave(old(channels), channel, id)
      ensures removed <==> id in Members(old(channels), channel)
    {
      if channel !in channels {
        return false;
      }
      var members := channels[channel];
      removed := id in members;
      members := members - {id};
      channels := channels[channel := members];
      if members == map[] {
        channels := channels - {channel};
      }
    }

    // Client ids in the channel, in the order the map happens to be iterated at that time.
    function Subscribers(channel: string, time: nat, order: IdOrder): (ids: seq<ClientId>)
      reads this
      ensures IsListing(ids, Members(channels, channel).Keys)
    {
      order(time, Members(channels, channel).Keys)
    }

    // Principals present, sorted and each once however many connections they hold.
    function Snapshot(channel: string): (principals: seq<string>)
      reads this
      ensures IsListing(principals, Principals(channels, channel)) && SortedBy(principals, NameLe)
    {
      SortedNames(Principals(channels, channel))
    }

    function ChannelCount(): nat
      reads this
    {
      |channels|
    }
  }
}
