/** Ids are compared as text. When the configured ids are decimal text this is the same as
    comparing numbers: the decision only depends on which numbers are owned. */
module Matching {
  import opened Basics
  import opened Text
  import opened Whmcs
  import opened ProductIds
  import opened Settings
  import opened Entitlement

  function ActivePids(prods: seq<ClientProduct>): set<int> {
    set p | p in prods && IsActive(p) :: p.pid
  }

  function Numbers(ids: seq<string>): set<int> {
    set id | id in ids && Atoi(id).Some? :: Atoi(id).value
  }

  /** The numbers that the mapping makes an administrator. */
  function AdminNumbers(mapping: seq<RoleMap>): set<int> {
    set m | m in mapping && m.role == "admin" && Atoi(m.productId).Some? :: Atoi(m.productId).value
  }

  predicate DecimalMapping(mapping: seq<RoleMap>) {
    forall i {:trigger mapping[i]} :: 0 <= i < |mapping| ==> Decimal(mapping[i].productId)
  }

  lemma OwnedText(id: string, prods: seq<ClientProduct>)
    requires Decimal(id)
    ensures id in ActiveIds(prods) <==> Atoi(id).value in ActivePids(prods)
  {
    var n := Atoi(id).value;
    if id in ActiveIds(prods) {
      var i :| 0 <= i < |prods| && IsActive(prods[i]) && id == Itoa(prods[i].pid);
      ItoaInjective(n, prods[i].pid);
      assert prods[i] in prods;
    }
    if n in ActivePids(prods) {
      var p :| p in prods && IsActive(p) && p.pid == n;
      var i :| 0 <= i < |prods| && prods[i] == p;
    }
  }

  /** The gate compares numbers. */
  lemma GateIsIntersection(want: seq<string>, prods: seq<ClientProduct>)
    requires AllDecimal(want)
    ensures Intersects(want, ActiveIds(prods)) <==> Numbers(want) * ActivePids(prods) != {}
  {
    forall w | w in want ensures Decimal(w) && (w in ActiveIds(prods) <==> Atoi(w).value in ActivePids(prods)) {
      var i :| 0 <= i < |want| && want[i] == w;
      assert Decimal(want[i]);
      OwnedText(w, prods);
    }
    if Intersects(want, ActiveIds(prods)) {
      var w :| w in want && w in ActiveIds(prods);
      assert Atoi(w).value in Numbers(want) * ActivePids(prods);
    }
    if Numbers(want) * ActivePids(prods) != {} {
      var n :| n in Numbers(want) * ActivePids(prods);
      var w :| w in want && Atoi(w) == Some(n);
      assert w in ActiveIds(prods);
    }
  }

  /** So does the role. */
  lemma RoleIsIntersection(mapping: seq<RoleMap>, prods: seq<ClientProduct>)
    requires DecimalMapping(mapping)
    ensures Role(ActiveIds(prods), mapping)
         == if AdminNumbers(mapping) * ActivePids(prods) != {} then "admin" else "user"
  {
    forall m | m in mapping
      ensures Decimal(m.productId)
      ensures m.productId in ActiveIds(prods) <==> Atoi(m.productId).value in ActivePids(prods)
    {
      var i :| 0 <= i < |mapping| && mapping[i] == m;
      assert Decimal(mapping[i].productId);
      OwnedText(m.productId, prods);
    }
    if p :| p in ActiveIds(prods) && AdminMapped(p, mapping) {
      var m := RoleMap(p, "admin");
      assert m in mapping && Atoi(p).value in AdminNumbers(mapping) * ActivePids(prods);
    }
    if AdminNumbers(mapping) * ActivePids(prods) != {} {
      var n :| n in AdminNumbers(mapping) * ActivePids(prods);
      var m :| m in mapping && m.role == "admin" && Atoi(m.productId) == Some(n);
      assert m == RoleMap(m.productId, "admin") && m.productId in ActiveIds(prods);
    }
  }

  lemma OwnedIdsGrow(less: seq<ClientProduct>, more: seq<ClientProduct>)
    requires ActivePids(less) <= ActivePids(more)
    ensures forall id :: id in ActiveIds(less) ==> id in ActiveIds(more)
  {
    forall id | id in ActiveIds(less) ensures id in ActiveIds(more) {
      var i :| 0 <= i < |less| && IsActive(less[i]) && id == Itoa(less[i].pid);
      assert less[i] in less && less[i].pid in ActivePids(less);
      var p :| p in more && IsActive(p) && p.pid == less[i].pid;
      var j :| 0 <= j < |more| && more[j] == p;
    }
  }

  /** Owning more active products never takes access or the admin role away, whatever the
      configuration. */
  lemma OwningMoreNeverHurts(cfg: Config, less: seq<ClientProduct>, more: seq<ClientProduct>)
    requires ActivePids(less) <= ActivePids(more)
    ensures Gate(cfg, Ok(less)).Ok? ==> Gate(cfg, Ok(more)).Ok?
    ensures Role(ActiveIds(less), Items(cfg.roleMapping)) == "admin"
        ==> Role(ActiveIds(more), Items(cfg.roleMapping)) == "admin"
  {
    OwnedIdsGrow(less, more);
  }

  /** The order of the products, and repeats among them, do not matter. */
  lemma OrderAndRepeatsDoNotMatter(cfg: Config, a: seq<ClientProduct>, b: seq<ClientProduct>)
    requires forall p :: p in a <==> p in b
    ensures Gate(cfg, Ok(a)).Ok? <==> Gate(cfg, Ok(b)).Ok?
    ensures Role(ActiveIds(a), Items(cfg.roleMapping)) == Role(ActiveIds(b), Items(cfg.roleMapping))
  {
    assert ActivePids(a) == ActivePids(b);
    OwningMoreNeverHurts(cfg, a, b);
    OwningMoreNeverHurts(cfg, b, a);
  }
}
