/** The ritual tables as the storage thread changes them in place, one transaction per operation. */
module RitualStore {
  import opened Wrappers
  import opened Domain
  import opened Versions

  class Store {
    var rituals: map<Uuid, Ritual>
    var versions: map<Uuid, RitualVersion>
    var approvals: map<Uuid, Approval>

    constructor ()
      ensures Rows() == Tables(map[], map[], map[])
    {
      rituals, versions, approvals := map[], map[], map[];
    }

    function Rows(): Tables
      reads this
    {
      Tables(rituals, versions, approvals)
    }

    /** The ritual row is changed first; when the version row collides the transaction is dropped. */
    method UpdateRitual(r: Ritual, v: RitualVersion) returns (result: Result<(), StorageError>)
      modifies this
      ensures match Versions.UpdateRitual(old(Rows()), r, v)
        case Ok(t) => result == Ok(()) && Rows() == t
        case Err(e) => result == Err(e) && Rows() == old(Rows())
    {
      var saved := rituals;
      if r.id !in rituals { return Err(NotFound); }
      rituals := rituals[r.id := rituals[r.id].(name := r.name, status := r.status, currentVersionId := v.id)];
      if VersionCollides(Rows(), v) {
        rituals := saved;
        return Err(Sqlite);
      }
      versions := versions[v.id := v];
      return Ok(());
    }

    method CreateApprovals(rows: seq<Approval>) returns (result: Result<(), StorageError>)
      modifies `approvals
      ensures match InsertApprovals(old(Rows()), rows)
        case Ok(t) => result == Ok(()) && Rows() == t
        case Err(e) => result == Err(e) && Rows() == old(Rows())
    {
      var saved := approvals;
      for i := 0 to |rows|
        invariant rituals == old(rituals) && versions == old(versions)
        invariant InsertApprovals(old(Rows()), rows[..i]) == Ok(Rows())
      {
        assert rows[..i + 1][..i] == rows[..i];
        if rows[i].id in approvals || rows[i].versionId !in versions {
          FailsEarly(old(Rows()), rows, i + 1);
          approvals := saved;
          return Err(Sqlite);
        }
        InsertApprovalsRows(old(Rows()), rows[..i]);
        approvals := approvals[rows[i].id := rows[i]];
      }
      assert rows[..|rows|] == rows;
      return Ok(());
    }
  }

  lemma {:induction false} FailsEarly(t: Tables, rows: seq<Approval>, n: nat)
    requires n <= |rows| && InsertApprovals(t, rows[..n]) == Err(Sqlite)
    ensures InsertApprovals(t, rows) == Err(Sqlite)
  {
    if n == |rows| {
      assert rows[..n] == rows;
    } else {
      var init := rows[..|rows| - 1];
      assert init[..n] == rows[..n];
      FailsEarly(t, init, n);
    }
  }
}
