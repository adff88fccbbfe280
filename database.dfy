/** The relational state every handler works on through its `db` session:
    the company, team and project tables, in insertion order, and the next
    primary key of each table. */
module Database {
  import opened Common
  import opened Models

  class Session {
    var companies: seq<Company>
    var teams: seq<Team>
    var projects: seq<Project>
    var nextCompanyId: nat
    var nextTeamId: nat
    var nextProjectId: nat

    /** The table constraints hold, and every key handed out so far is below
        the table's next key. */
    ghost predicate Valid()
      reads this
    {
      TablesValid(companies, teams, projects) &&
      (forall i :: 0 <= i < |companies| ==> companies[i].id < nextCompanyId) &&
      (forall i :: 0 <= i < |teams| ==> teams[i].id < nextTeamId) &&
      (forall i :: 0 <= i < |projects| ==> projects[i].id < nextProjectId)
    }

    /** `Base.metadata.create_all` on an empty database. */
    constructor ()
      ensures Valid()
      ensures companies == [] && teams == [] && projects == []
    {
      companies, teams, projects := [], [], [];
      nextCompanyId, nextTeamId, nextProjectId := 1, 1, 1;
    }
  }
}
