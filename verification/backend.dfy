/** The two stores the gate writes: the identity provider's per-user metadata
    and the `creations` table. Both are updated in place by the handlers. */
module Backend {
  import opened Ledger

  class Store {
    /** `privateMetadata.free_usage` of each user that has one. */
    var usage: map<UserId, nat>
    /** The `creations` table, in insertion order. */
    var creations: seq<Creation>

    constructor (usage0: map<UserId, nat>, creations0: seq<Creation>)
      ensures usage == usage0 && creations == creations0
    {
      usage := usage0;
      creations := creations0;
    }

    function Snapshot(): State
      reads this
    {
      State(usage, creations)
    }

    /** `updateUserMetadata(user, {privateMetadata: {free_usage}})`: takes
        effect only when the service returns. */
    method UpdateUserMetadata(user: UserId, freeUsage: nat, reply: Call<()>)
      modifies this
      ensures creations == old(creations)
      ensures reply.Returns? ==> usage == old(usage)[user := freeUsage] && usage[user] == freeUsage
      ensures reply.Throws? ==> usage == old(usage)
    {
      if reply.Returns? {
        usage := usage[user := freeUsage];
      }
    }

    /** `INSERT INTO creations ...`: appends the row only when the database
        returns. */
    method InsertCreation(row: Creation, reply: Call<()>)
      modifies this
      ensures usage == old(usage)
      ensures reply.Returns? ==> creations == old(creations) + [row]
      ensures reply.Throws? ==> creations == old(creations)
    {
      if reply.Returns? {
        creations := creations + [row];
      }
    }
  }
}
