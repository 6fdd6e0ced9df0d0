/** The role tables of an RBACTimelock. */
module RoleTables {
  import opened Evm

  datatype Role = Proposer | Canceller | Bypasser | Executor | Admin | Unsupported

  datatype Tables = Tables(proposers: set<Address>, cancellers: set<Address>, bypassers: set<Address>,
                           executors: set<Address>, admins: set<Address>) {
    function Get(role: Role): set<Address> {
      match role
      case Proposer => proposers
      case Canceller => cancellers
      case Bypasser => bypassers
      case Executor => executors
      case Admin => admins
      case Unsupported => {}
    }

    function Grant(role: Role, a: Address): (r: Tables)
      ensures role != Unsupported ==>
        forall other: Role :: r.Get(other) == if other == role then Get(other) + {a} else Get(other)
    {
      match role
      case Proposer => this.(proposers := proposers + {a})
      case Canceller => this.(cancellers := cancellers + {a})
      case Bypasser => this.(bypassers := bypassers + {a})
      case Executor => this.(executors := executors + {a})
      case Admin => this.(admins := admins + {a})
      case Unsupported => this
    }
  }

  lemma TablesExtensional(t: Tables, u: Tables)
    requires forall role: Role :: t.Get(role) == u.Get(role)
    ensures t == u
  {
    assert t.Get(Proposer) == u.Get(Proposer) && t.Get(Canceller) == u.Get(Canceller)
      && t.Get(Bypasser) == u.Get(Bypasser)
        && t.Get(Executor) == u.Get(Executor) && t.Get(Admin) == u.Get(Admin);
  }
}
