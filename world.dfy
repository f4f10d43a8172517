/** The whole observable state of the dispatch backend: the registry, the durable store
    and the emitted events, in order. */
module Worlds {
  import opened Types
  import opened RegistryState
  import opened StoreState
  import opened Registry
  import opened Store
  import opened Producer

  datatype World = World(reg: RegState, db: DbState, log: seq<Emission>)

  ghost function WorldOf(reg: RedisClient, db: Database, producer: EventProducer): World
    reads reg, db, producer
  {
    World(reg.State(), db.State(), producer.log)
  }
}
