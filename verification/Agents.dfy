/** The registry of connected agents (src/agent.rs). */
module Agents {
  import opened Options
  import opened Clock
  import opened Queue

  datatype Agent = Agent(
    id: string,
    hostname: string,
    namespace: string,
    connectedAt: int,
    lastHeartbeat: int,
    tx: Option<Channel>)

  predicate Stale(a: Agent, now: int, thresholdSecs: int)
  {
    WholeSeconds(now - a.lastHeartbeat) > thresholdSecs
  }

  class AgentRegistry {
    var agents: map<string, Agent>

    constructor ()
      ensures agents == map[]
    {
      agents := map[];
    }

    method Register(agent: Agent)
      modifies this
      ensures agents == old(agents)[agent.id := agent]
    {
      agents := agents[agent.id := agent];
    }

    method Unregister(id: string) returns (removed: Option<Agent>)
      modifies this
      ensures agents == old(agents) - {id}
      ensures removed == if id in old(agents) then Some(old(agents)[id]) else None
    {
      removed := if id in agents then Some(agents[id]) else None;
      agents := agents - {id};
    }

    method Get(id: string) returns (found: Option<Agent>)
      ensures found == if id in agents then Some(agents[id]) else None
    {
      found := if id in agents then Some(agents[id]) else None;
    }

    method Heartbeat(id: string, now: int)
      modifies this
      ensures agents ==
        if id in old(agents) then old(agents)[id := old(agents)[id].(lastHeartbeat := now)] else old(agents)
    {
      if id in agents {
        agents := agents[id := agents[id].(lastHeartbeat := now)];
      }
    }

    /** The agents not heard from for more than the threshold, each once, in no particular order. */
    method StaleAgents(thresholdSecs: int, now: int) returns (stale: seq<string>)
      ensures forall id :: id in stale <==> id in agents && Stale(agents[id], now, thresholdSecs)
      ensures forall i, j :: 0 <= i < j < |stale| ==> stale[i] != stale[j]
      ensures thresholdSecs >= 0 ==> forall id :: id in stale <==>
        id in agents && now - agents[id].lastHeartbeat >= (thresholdSecs + 1) * TICKS_PER_SECOND
    {
      hide WholeSeconds;
      stale := [];
      var todo := agents.Keys;
      while todo != {}
        invariant todo <= agents.Keys
        invariant forall id :: id in stale <==> id in agents && id !in todo && Stale(agents[id], now, thresholdSecs)
        invariant forall i, j :: 0 <= i < j < |stale| ==> stale[i] != stale[j]
        decreases todo
      {
        var id :| id in todo;
        todo := todo - {id};
        if Stale(agents[id], now, thresholdSecs) {
          assert id !in stale;
          stale := stale + [id];
        }
      }
      forall id | thresholdSecs >= 0 && id in agents {
        MoreSecondsExactly(now - agents[id].lastHeartbeat, thresholdSecs);
      }
    }
  }
}
