/** The guards that fence a worker: each compares the claim it holds with the rows. */
module Guards {
  import opened Texts
  import opened Types

  function ValidateRunToken(run: RunRow, key: LeaseKey): Option<Error> {
    if run.generation != key.generation then Some(LeaseLost)
    else if run.token != key.token then Some(LeaseLost)
    else None
  }

  function ValidateOwnership(agent: AgentRow, run: RunRow, key: LeaseKey, runtime: Text, now: real): Option<Error> {
    if ValidateRunToken(run, key).Some? then Some(LeaseLost)
    else if key.runtime != runtime then Some(LeaseLost)
    else if agent.activeRun != key.run then Some(LeaseLost)
    else if agent.generation != key.generation then Some(LeaseLost)
    else if agent.lease.None? || agent.lease.value.runtime != runtime then Some(LeaseLost)
    else if agent.lease.value.token != key.token then Some(LeaseLost)
    else if agent.lease.value.expires <= now then Some(LeaseLost)
    else None
  }

  function ValidateActiveRows(agent: AgentRow, run: RunRow, key: LeaseKey, runtime: Text, now: real): Option<Error> {
    if ValidateOwnership(agent, run, key, runtime, now).Some? then Some(LeaseLost)
    else if !agent.status.Active() then Some(LeaseLost)
    else if !run.status.Active() then Some(LeaseLost)
    else None
  }

  function ValidateCancelingRows(agent: AgentRow, run: RunRow, key: LeaseKey, runtime: Text, now: real): Option<Error> {
    if ValidateOwnership(agent, run, key, runtime, now).Some? then Some(LeaseLost)
    else if !agent.status.Canceling? then Some(LeaseLost)
    else if !run.status.RunCanceled? then Some(LeaseLost)
    else None
  }

  /** The rows a claim names, looked up before any of the comparisons. */
  predicate RowsFound(db: Db, key: LeaseKey) {
    key.agent in db.agents && key.run in db.runs && db.runs[key.run].agent == key.agent
  }

  function ValidateActive(db: Db, key: LeaseKey, runtime: Text, now: real): Option<Error> {
    if !RowsFound(db, key) then Some(NotFound)
    else ValidateActiveRows(db.agents[key.agent], db.runs[key.run], key, runtime, now)
  }

  function ValidateCanceling(db: Db, key: LeaseKey, runtime: Text, now: real): Option<Error> {
    if !RowsFound(db, key) then Some(NotFound)
    else ValidateCancelingRows(db.agents[key.agent], db.runs[key.run], key, runtime, now)
  }

  /** fetchAgentTx: an agent with its active run, or with a given run; an empty owner
      is not compared. */
  function Fetch(db: Db, a: Id, run: Option<Id>, owner: Text): Reply<View> {
    if a !in db.agents then Err(NotFound)
    else if owner != [] && db.agents[a].owner != owner then Err(NotFound)
    else
      var r := if run.Some? then run.value else db.agents[a].activeRun;
      if r !in db.runs || db.runs[r].agent != a then Err(NotFound)
      else Ok(View(a, db.agents[a], r, db.runs[r]))
  }
}
