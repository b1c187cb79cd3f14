/**
 * The label registry of CloudEnvironment: a map from service-info type to the
 * set of service labels that identify it, filled in place by
 * `labelledServiceType` and populated once by the static initialiser.
 */
module Registry {

  /**
   * The service-info classes of the static initialiser; `Other` stands for any
   * further AbstractServiceInfo subclass a caller may pass as a `Class<T>`.
   */
  datatype ServiceType = Mysql | Redis | Mongo | Postgresql | Rabbit | Other(className: string)

  type LabelMap = map<ServiceType, set<string>>

  /** The map after one `labelledServiceType(t, l)`: l joins t's set, nothing else moves. */
  function WithLabel(m: LabelMap, t: ServiceType, l: string): (r: LabelMap)
    ensures r.Keys == m.Keys + {t}
    ensures forall x :: x in r[t] <==> x == l || (t in m && x in m[t])
    ensures forall u :: u in m && u != t ==> r[u] == m[u]
  {
    m[t := (if t in m then m[t] else {}) + {l}]
  }

  /** Registering the same association twice is the same as registering it once. */
  lemma WithLabelIdempotent(m: LabelMap, t: ServiceType, l: string)
    ensures WithLabel(WithLabel(m, t, l), t, l) == WithLabel(m, t, l)
  {
  }

  /** Registration order is immaterial: each call is a set union on one type. */
  lemma WithLabelCommutes(m: LabelMap, t1: ServiceType, l1: string, t2: ServiceType, l2: string)
    ensures WithLabel(WithLabel(m, t1, l1), t2, l2) == WithLabel(WithLabel(m, t2, l2), t1, l1)
  {
    var a := WithLabel(WithLabel(m, t1, l1), t2, l2);
    var b := WithLabel(WithLabel(m, t2, l2), t1, l1);
    assert a.Keys == b.Keys;
    forall u | u in a
      ensures a[u] == b[u]
    {
      assert forall x :: x in a[u] <==> x in b[u];
    }
  }

  /** Registering a type for the first time gives it a one-label set. */
  lemma WithLabelNew(m: LabelMap, t: ServiceType, l: string)
    requires t !in m
    ensures WithLabel(m, t, l) == m[t := {l}]
  {
    assert {} + {l} == {l};
  }

  /** Registering a further label of a known type extends that type's set. */
  lemma WithLabelKnown(m: LabelMap, t: ServiceType, l: string)
    requires t in m
    ensures WithLabel(m, t, l) == m[t := m[t] + {l}]
  {
  }

  /** Three registrations of a new type give it exactly those three labels. */
  lemma WithLabelThree(m: LabelMap, t: ServiceType, a: string, b: string, c: string)
    requires t !in m
    ensures WithLabel(WithLabel(WithLabel(m, t, a), t, b), t, c) == m[t := {a, b, c}]
  {
    var m1 := WithLabel(m, t, a);
    WithLabelNew(m, t, a);
    var m2 := WithLabel(m1, t, b);
    WithLabelKnown(m1, t, b);
    WithLabelKnown(m2, t, c);
    assert {a} + {b} + {c} == {a, b, c};
  }

  /** No label identifies two different service types. */
  ghost predicate LabelsDisjoint(m: LabelMap)
  {
    forall t, u, l :: t in m && u in m && t != u && l in m[t] ==> l !in m[u]
  }

  /** Adding a label that no other type holds keeps the labels disjoint. */
  lemma WithLabelKeepsDisjoint(m: LabelMap, t: ServiceType, l: string)
    requires LabelsDisjoint(m)
    requires forall u :: u in m && u != t ==> l !in m[u]
    ensures LabelsDisjoint(WithLabel(m, t, l))
  {
  }

  /** The registry after the static initialiser: its seven registrations in order. */
  function StaticLabels(): LabelMap
  {
    var m1 := WithLabel(map[], Mysql, "mysql-5.1");
    var m2 := WithLabel(m1, Redis, "redis-2.2");
    var m3 := WithLabel(m2, Mongo, "mongodb-1.8");
    var m4 := WithLabel(m3, Postgresql, "postgresql-9.0");
    var m5 := WithLabel(m4, Rabbit, "rabbitmq-2.4");          // the old rabbitmq service
    var m6 := WithLabel(m5, Rabbit, "rabbitmq-srs-2.4.1");    // the SRS-based service while it is tested
    WithLabel(m6, Rabbit, "rabbitmq-2.4.1")                   // the SRS-based service once the old one is gone
  }

  /** The registry the static initialiser leaves, written out. */
  const StaticTable: LabelMap := map[
    Mysql := {"mysql-5.1"},
    Redis := {"redis-2.2"},
    Mongo := {"mongodb-1.8"},
    Postgresql := {"postgresql-9.0"},
    Rabbit := {"rabbitmq-2.4", "rabbitmq-srs-2.4.1", "rabbitmq-2.4.1"}]

  /** Replaying the seven registrations yields exactly the table above. */
  lemma StaticLabelsContents()
    ensures StaticLabels() == StaticTable
  {
    var m4 := WithLabel(WithLabel(WithLabel(WithLabel(map[], Mysql, "mysql-5.1"),
                Redis, "redis-2.2"), Mongo, "mongodb-1.8"), Postgresql, "postgresql-9.0");
    assert m4 == map[Mysql := {"mysql-5.1"}, Redis := {"redis-2.2"}, Mongo := {"mongodb-1.8"},
                     Postgresql := {"postgresql-9.0"}] by {
      var m1 := WithLabel(map[], Mysql, "mysql-5.1");
      WithLabelNew(map[], Mysql, "mysql-5.1");
      var m2 := WithLabel(m1, Redis, "redis-2.2");
      WithLabelNew(m1, Redis, "redis-2.2");
      var m3 := WithLabel(m2, Mongo, "mongodb-1.8");
      WithLabelNew(m2, Mongo, "mongodb-1.8");
      WithLabelNew(m3, Postgresql, "postgresql-9.0");
    }
    WithLabelThree(m4, Rabbit, "rabbitmq-2.4", "rabbitmq-srs-2.4.1", "rabbitmq-2.4.1");
  }

  /**
   * Rabbit has exactly three labels, each other built-in type exactly one,
   * and no `Other` type is registered.
   */
  lemma StaticLabelCounts()
    ensures |StaticTable[Rabbit]| == 3
    ensures |StaticTable[Mysql]| == 1 && |StaticTable[Redis]| == 1
    ensures |StaticTable[Mongo]| == 1 && |StaticTable[Postgresql]| == 1
    ensures forall t :: t in StaticTable <==> !t.Other?
  {
  }

  /** The static initialiser registers exactly the five built-in types. */
  lemma StaticLabelsKeys(t: ServiceType)
    ensures t in StaticLabels() <==> !t.Other?
  {
    StaticLabelsContents();
    StaticLabelCounts();
  }

  /** After static initialisation no label belongs to two types. */
  lemma StaticLabelsDisjoint()
    ensures LabelsDisjoint(StaticTable)
  {
  }

  /** The process-wide `serviceTypeToLabels` map. */
  class LabelRegistry {
    var labels: LabelMap

    /** The empty HashMap the static field starts with. */
    constructor ()
      ensures labels == map[]
    {
      labels := map[];
    }

    /** `labelledServiceType(t, l)`: create t's set on first use, then add l. */
    method Register(t: ServiceType, l: string)
      modifies this
      ensures labels == WithLabel(old(labels), t, l)
    {
      if t !in labels {
        labels := labels[t := {}];
      }
      labels := labels[t := labels[t] + {l}];
    }
  }

  /** The static initialiser: a fresh registry with the seven built-in associations. */
  method StaticInit() returns (reg: LabelRegistry)
    ensures fresh(reg)
    ensures reg.labels == StaticLabels() == StaticTable
    ensures LabelsDisjoint(reg.labels)
  {
    reg := new LabelRegistry();
    reg.Register(Mysql, "mysql-5.1");
    reg.Register(Redis, "redis-2.2");
    reg.Register(Mongo, "mongodb-1.8");
    reg.Register(Postgresql, "postgresql-9.0");
    reg.Register(Rabbit, "rabbitmq-2.4");
    reg.Register(Rabbit, "rabbitmq-srs-2.4.1");
    reg.Register(Rabbit, "rabbitmq-2.4.1");
    StaticLabelsContents();
    StaticLabelsDisjoint();
  }
}
