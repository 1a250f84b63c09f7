/** The manager of running agents: one per project, which later requests join. */
module AgentManager {
  import opened Options
  import opened Broadcast

  class Manager {
    var activeAgents: map<string, RunningAgent>
    /** Agents whose run has started and not ended. */
    ghost var running: set<RunningAgent>

    /** Every running agent is the one its project's entry names: so there is at most one per project. */
    ghost predicate Valid()
      reads this, running
    {
      && (forall a :: a in running ==> a.project in activeAgents && activeAgents[a.project] == a)
      && (forall p :: p in activeAgents ==> activeAgents[p] in running && activeAgents[p].project == p)
      && (forall a :: a in running ==> a.Valid() && a.endedAt == None)
    }

    constructor ()
      ensures Valid() && activeAgents == map[] && running == {}
    {
      activeAgents, running := map[], {};
    }

    /** Joins the project's agent; with none running there is nothing to read. */
    method SubscribeClient(project: string) returns (stream: Option<nat>)
      requires Valid()
      modifies running
      ensures Valid() && unchanged(this)
      ensures stream.Some? <==> project in activeAgents
      ensures forall a :: a in running && a.project != project ==> unchanged(a)
      ensures stream.Some? ==>
                var a := activeAgents[project];
                a.events == old(a.events) && a.streams == old(a.streams) + [Stream(View(a.events, |a.events|), Open)] &&
                stream.value == |old(a.streams)|
    {
      if project !in activeAgents {
        return None;
      }
      var agent := activeAgents[project];
      var id := agent.Subscribe();
      stream := Some(id);
    }

    /** Joins the agent that is running, or starts one. */
    method StartAgent(project: string, message: Option<string>) returns (started: bool, id: nat)
      requires Valid()
      modifies this, running
      ensures Valid() && started == (project !in old(activeAgents)) && project in activeAgents
      ensures !started ==> unchanged(this)
      ensures started ==> fresh(activeAgents[project]) && activeAgents == old(activeAgents)[project := activeAgents[project]]
      ensures forall a :: a in old(running) && a.project != project ==> unchanged(a)
      ensures id < |activeAgents[project].streams| && activeAgents[project].streams[id].link == Open
    {
      if project in activeAgents {
        var stream := SubscribeClient(project);
        return false, stream.value;
      }
      Launch(project, message);
      id := activeAgents[project].Subscribe();
      started := true;
    }

    /** Creates the agent's record, and its entry. */
    method Launch(project: string, message: Option<string>)
      requires Valid() && project !in activeAgents
      modifies this
      ensures Valid() && project in activeAgents && fresh(activeAgents[project])
      ensures activeAgents == old(activeAgents)[project := activeAgents[project]] && running == old(running) + {activeAgents[project]}
    {
      var agent := new RunningAgent(project, message);
      activeAgents := activeAgents[project := agent];
      running := running + {agent};
    }

    method QueueUserMessage(project: string, content: string) returns (ok: bool)
      requires Valid()
      modifies running
      ensures Valid() && unchanged(this) && (ok <==> project in activeAgents)
      ensures ok ==> activeAgents[project].sent == old(activeAgents[project].sent) + [content]
      ensures forall a :: a in running && a.project != project ==> unchanged(a)
    {
      if project !in activeAgents {
        return false;
      }
      activeAgents[project].QueueMessage(content);
      ok := true;
    }

    method ProvideUserInput(project: string, answer: string) returns (ok: bool)
      requires Valid()
      modifies running
      ensures Valid() && unchanged(this)
      ensures ok <==> project in activeAgents && old(activeAgents[project].pendingInput).Some?
      ensures project in activeAgents ==> Stand(old(activeAgents[project].answers), activeAgents[project].answers)
      ensures forall a :: a in running && a.project != project ==> unchanged(a)
    {
      if project !in activeAgents {
        return false;
      }
      ok := activeAgents[project].ProvideUserInput(answer);
    }

    /** The end of an agent's run: its streams are closed, holding the whole log, and its project is free. */
    method Finish(agent: RunningAgent)
      requires Valid() && agent in running
      modifies this, agent
      ensures Valid() && running == old(running) - {agent} && agent.project !in activeAgents
      ensures agent.Valid() && agent.endedAt == Some(|agent.events|) && agent.events == old(agent.events)
      ensures |agent.streams| == |old(agent.streams)|
      ensures forall c | 0 <= c < |agent.streams| && old(agent.streams)[c].link == Open ::
                agent.streams[c].link == Closed && WithoutMarkers(agent.streams[c].received) == agent.events
      ensures forall c | 0 <= c < |agent.streams| :: agent.streams[c].link != Open
    {
      agent.End();
      forall c | 0 <= c < |agent.streams| && old(agent.streams)[c].link == Open
        ensures agent.streams[c].link == Closed && WithoutMarkers(agent.streams[c].received) == agent.events
      {
        ViewHoldsTheLog(agent.events, agent.joined[c]);
      }
      activeAgents := map p | p in activeAgents && p != agent.project :: activeAgents[p];
      running := running - {agent};
    }
  }
}
