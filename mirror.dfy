/** The client's read-only mirrors of the server's players and projectiles,
    and what one broadcast does to them. */
module Mirror {
  import opened Vectors

  /** Player and projectile ids (object keys of the broadcast maps). */
  type Id = int

  /** A Cesium quaternion, copied from the server and never inspected here. */
  datatype Quat = Quat(x: real, y: real, z: real, w: real)

  /** What the client keeps of a mirrored entity. */
  datatype Entity = Entity(position: Vec3, orientation: Quat)

  /** A player as broadcast by the server. */
  datatype PlayerState = PlayerState(pos: Vec3, orientation: Quat, health: int)

  /** A projectile as broadcast by the server. */
  datatype ProjectileState = ProjectileState(pos: Vec3)

  /** The player mirror after a broadcast: every player but the client's own
      is added or overwritten with the server's position and orientation;
      nothing is ever deleted and the own id is never added. */
  function MergedPlayers(mirror: map<Id, Entity>, server: map<Id, PlayerState>, own: Id): (r: map<Id, Entity>)
    ensures forall id :: id in server && id != own ==> id in r && r[id] == Entity(server[id].pos, server[id].orientation)
    ensures forall id :: id in mirror ==> id in r
    ensures forall id :: id in r ==> id in mirror || (id in server && id != own)
    ensures forall id :: id in mirror && (id !in server || id == own) ==> r[id] == mirror[id]
    ensures own !in mirror ==> own !in r
  {
    map id | id in mirror.Keys + (server.Keys - {own}) ::
      if id in server && id != own then Entity(server[id].pos, server[id].orientation) else mirror[id]
  }

  /** The health the client takes from a broadcast: its own entry's, when there is one. */
  function OwnHealth(health: int, server: map<Id, PlayerState>, own: Id): (h: int)
    ensures own in server ==> h == server[own].health
    ensures own !in server ==> h == health
  {
    if own in server then server[own].health else health
  }

  /** Only the own entry of a broadcast sets the health: overwriting or adding
      any other player's entry changes nothing, and the broadcast cut down to
      the own entry gives the same health. */
  lemma OwnHealthReadsOnlyOwnEntry(health: int, server: map<Id, PlayerState>, own: Id, other: Id, p: PlayerState)
    requires other != own
    ensures OwnHealth(health, server[other := p], own) == OwnHealth(health, server, own)
    ensures OwnHealth(health, map id | id in server && id == own :: server[id], own) == OwnHealth(health, server, own)
  {
  }

  /** The projectile mirror after the upsert loop: every broadcast projectile
      is present at the server's position; a new one gets the initial
      orientation, an existing one keeps its own. */
  function MergedProjectiles(mirror: map<Id, Entity>, server: map<Id, ProjectileState>, initial: Quat): (r: map<Id, Entity>)
    ensures forall id :: id in server ==> id in r && r[id].position == server[id].pos
    ensures forall id :: id in server ==> r[id].orientation == if id in mirror then mirror[id].orientation else initial
    ensures r.Keys == mirror.Keys + server.Keys
    ensures forall id :: id in mirror && id !in server ==> r[id] == mirror[id]
  {
    map id | id in mirror.Keys + server.Keys ::
      if id in server then
        Entity(server[id].pos, if id in mirror then mirror[id].orientation else initial)
      else mirror[id]
  }

  /** The projectile mirror after the removal loop: the listed ids are gone
      and every other entry is untouched. */
  function Removed(mirror: map<Id, Entity>, ids: seq<Id>): (r: map<Id, Entity>)
    ensures r.Keys == mirror.Keys - set i | i in ids
    ensures forall id :: id in r ==> r[id] == mirror[id]
  {
    map id | id in mirror && id !in ids :: mirror[id]
  }

  /** The whole projectile update of one broadcast: a broadcast projectile is
      present at the server's position unless it is also listed for removal,
      and a listed id is absent afterwards, even one broadcast in the same message. */
  lemma ProjectileReconciliation(mirror: map<Id, Entity>, server: map<Id, ProjectileState>, ids: seq<Id>, initial: Quat)
    ensures var r := Removed(MergedProjectiles(mirror, server, initial), ids);
      && (forall id :: id in server && id !in ids ==> id in r && r[id].position == server[id].pos)
      && (forall id :: id in ids ==> id !in r)
      && (forall id :: id in r ==> id in mirror || id in server)
  {
  }

  /** A non-empty set of ids has a member to pick next. */
  lemma HasMember(ids: set<Id>)
    requires ids != {}
    ensures exists id :: id in ids
  {
    if forall id :: id !in ids {
      assert false;
    }
  }
}
