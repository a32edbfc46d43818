// Price sheets: at most one active per company, swapped whole, never simply withdrawn.

module Tariffs {
  import opened Options

  type Id = nat

  datatype Tariff = Tariff(company: Id, price: int, active: bool)

  // findActiveTariffForCompany.
  function FindActive(tariffs: seq<Tariff>, company: Id): (found: Option<Id>)
    ensures found.Some? ==>
              found.value < |tariffs| && tariffs[found.value].company == company && tariffs[found.value].active
    ensures found.None? ==> forall i :: 0 <= i < |tariffs| ==> !(tariffs[i].company == company && tariffs[i].active)
  {
    if tariffs == [] then None
    else
      var n := |tariffs| - 1;
      if tariffs[n].company == company && tariffs[n].active then Some(n) else FindActive(tariffs[..n], company)
  }

  function PriceInForce(tariffs: seq<Tariff>, company: Id): Option<int> {
    match FindActive(tariffs, company)
    case None => None
    case Some(t) => Some(tariffs[t].price)
  }

  // The partial unique index one_active_tariff_per_company.
  ghost predicate OneActive(tariffs: seq<Tariff>) {
    forall i, j :: 0 <= i < j < |tariffs| && tariffs[i].active && tariffs[j].active ==>
      tariffs[i].company != tariffs[j].company
  }

  function Create(tariffs: seq<Tariff>, company: Id, price: int): seq<Tariff> {
    tariffs + [Tariff(company, price, false)]
  }

  function Update(tariffs: seq<Tariff>, t: Id, price: int): seq<Tariff> {
    if t < |tariffs| then tariffs[t := tariffs[t].(price := price)] else tariffs
  }

  // The swap: the incumbent off, then the new one on, in one transaction.
  function Activate(tariffs: seq<Tariff>, t: Id): seq<Tariff> {
    if t >= |tariffs| || tariffs[t].active then tariffs
    else
      var incumbent := FindActive(tariffs, tariffs[t].company);
      var cleared := if incumbent.Some? then tariffs[incumbent.value := tariffs[incumbent.value].(active := false)]
                     else tariffs;
      cleared[t := cleared[t].(active := true)]
  }

  // Refused when no other tariff of the company is active.
  function Deactivate(tariffs: seq<Tariff>, t: Id): seq<Tariff> {
    if t >= |tariffs| || !tariffs[t].active || !AnotherActive(tariffs, t) then tariffs
    else tariffs[t := tariffs[t].(active := false)]
  }

  predicate AnotherActive(tariffs: seq<Tariff>, t: Id)
    requires t < |tariffs|
  {
    exists i :: 0 <= i < |tariffs| && i != t && tariffs[i].active && tariffs[i].company == tariffs[t].company
  }

  // With one active tariff per company, a bare deactivation is always refused.
  lemma DeactivateNeverActs(tariffs: seq<Tariff>, t: Id)
    requires OneActive(tariffs)
    ensures Deactivate(tariffs, t) == tariffs
  {
  }

  lemma ActivateSwaps(tariffs: seq<Tariff>, t: Id)
    requires OneActive(tariffs) && t < |tariffs|
    ensures var tariffs' := Activate(tariffs, t);
            && OneActive(tariffs') && FindActive(tariffs', tariffs[t].company) == Some(t)
            && |tariffs'| == |tariffs|
            && (forall i :: 0 <= i < |tariffs| ==>
                  && tariffs'[i].price == tariffs[i].price && tariffs'[i].company == tariffs[i].company
                  && (tariffs[i].company != tariffs[t].company ==> tariffs'[i] == tariffs[i])
                  && (i != t && tariffs[i].company == tariffs[t].company ==> !tariffs'[i].active))
  {
    var tariffs' := Activate(tariffs, t);
    forall i, j | 0 <= i < j < |tariffs'| && tariffs'[i].active && tariffs'[j].active
      ensures tariffs'[i].company != tariffs'[j].company
    {
    }
    assert tariffs'[t].active;
    var found := FindActive(tariffs', tariffs[t].company);
    assert found.Some? && tariffs'[found.value].active;
  }

  // Once a company has published a price, no tariff operation leaves it without one.
  lemma APriceStaysPublished(tariffs: seq<Tariff>, t: Id, company: Id, owner: Id, price: int)
    requires OneActive(tariffs) && FindActive(tariffs, company).Some?
    ensures FindActive(Create(tariffs, owner, price), company).Some?
    ensures FindActive(Update(tariffs, t, price), company).Some?
    ensures FindActive(Activate(tariffs, t), company).Some?
    ensures FindActive(Deactivate(tariffs, t), company).Some?
  {
    var held := FindActive(tariffs, company).value;
    assert Create(tariffs, owner, price)[held] == tariffs[held];
    if t < |tariffs| {
      assert Update(tariffs, t, price)[held].active && Update(tariffs, t, price)[held].company == company;
      ActivateSwaps(tariffs, t);
      DeactivateNeverActs(tariffs, t);
      assert tariffs[t].company != company ==> Activate(tariffs, t)[held] == tariffs[held];
    }
  }

  // The active tariff is the only one found.
  lemma FoundIsActive(tariffs: seq<Tariff>, t: Id)
    requires OneActive(tariffs) && t < |tariffs| && tariffs[t].active
    ensures FindActive(tariffs, tariffs[t].company) == Some(t)
  {
  }

  // A price in force is the price of the active tariff, wherever it stands; so two lists that agree on
  // the active tariffs agree on every price.
  lemma SamePrices(tariffs: seq<Tariff>, tariffs': seq<Tariff>, company: Id)
    requires OneActive(tariffs) && OneActive(tariffs') && |tariffs| <= |tariffs'|
    requires forall i :: 0 <= i < |tariffs| && tariffs[i].company == company ==> tariffs'[i] == tariffs[i]
    requires forall i :: 0 <= i < |tariffs'| && tariffs'[i].company == company && tariffs'[i].active ==> i < |tariffs|
    requires forall i :: 0 <= i < |tariffs| && tariffs'[i].company == company ==> tariffs[i].company == company
    ensures PriceInForce(tariffs', company) == PriceInForce(tariffs, company)
  {
    var found := FindActive(tariffs, company);
    if found.Some? {
      FoundIsActive(tariffs', found.value);
    }
  }

  // The service, in place: what each call does to the price that the next session of any company starts at.
  class TariffBook {
    var tariffs: seq<Tariff>

    ghost predicate Valid()
      reads this
    {
      OneActive(tariffs)
    }

    function PriceOf(company: Id): Option<int>
      reads this
    {
      PriceInForce(tariffs, company)
    }

    constructor ()
      ensures Valid() && tariffs == []
    {
      tariffs := [];
    }

    // A new tariff is no price yet.
    method CreateTariff(company: Id, price: int) returns (t: Id)
      requires Valid()
      modifies this
      ensures Valid() && tariffs == Create(old(tariffs), company, price) && t == |old(tariffs)|
      ensures forall c :: PriceOf(c) == old(PriceOf(c))
    {
      t := |tariffs|;
      tariffs := tariffs + [Tariff(company, price, false)];
      forall c ensures PriceOf(c) == old(PriceOf(c)) {
        SamePrices(old(tariffs), tariffs, c);
      }
    }

    // An edit is the new price at once if the tariff is active, and no price at all if not.
    method UpdateTariff(t: Id, price: int)
      requires Valid() && t < |tariffs|
      modifies this
      ensures Valid() && tariffs == Update(old(tariffs), t, price)
      ensures forall c :: PriceOf(c) == if old(tariffs[t].active) && c == old(tariffs[t].company) then Some(price)
                                        else old(PriceOf(c))
    {
      tariffs := tariffs[t := tariffs[t].(price := price)];
      forall c
        ensures PriceOf(c) == if old(tariffs[t].active) && c == old(tariffs[t].company) then Some(price)
                              else old(PriceOf(c))
      {
        UpdatedPrice(old(tariffs), t, price, c);
      }
    }

    // Activation makes this tariff's price its company's. A bare deactivation is refused while no other tariff
    // of the company is active; under the index it always is, or has nothing to do.
    method SetTariffStatus(t: Id, active: bool) returns (refused: bool)
      requires t < |tariffs|
      modifies this
      ensures tariffs == if active then Activate(old(tariffs), t) else Deactivate(old(tariffs), t)
      ensures refused ==> !active && old(tariffs[t].active) && tariffs == old(tariffs)
      ensures old(Valid()) ==>
                && Valid() && (refused <==> !active && old(tariffs[t].active))
                && forall c :: PriceOf(c) == if active && c == old(tariffs[t].company) then Some(old(tariffs[t].price))
                                             else old(PriceOf(c))
    {
      ghost var before := tariffs;
      refused := false;
      if tariffs[t].active != active {
        if !active {
          refused := !AnotherActive(tariffs, t);
          if !refused {
            tariffs := tariffs[t := tariffs[t].(active := false)];
          }
        } else {
          var incumbent := FindActive(tariffs, tariffs[t].company);
          if incumbent.Some? {
            tariffs := tariffs[incumbent.value := tariffs[incumbent.value].(active := false)];
          }
          tariffs := tariffs[t := tariffs[t].(active := true)];
        }
      }
      assert tariffs == if active then Activate(before, t) else Deactivate(before, t);
      if OneActive(before) {
        SwitchedPrices(before, tariffs, t, active);
      }
    }
  }

  // What a switch does to every company's price.
  lemma SwitchedPrices(tariffs: seq<Tariff>, tariffs': seq<Tariff>, t: Id, active: bool)
    requires OneActive(tariffs) && t < |tariffs|
    requires tariffs' == if active then Activate(tariffs, t) else Deactivate(tariffs, t)
    ensures OneActive(tariffs') && (tariffs[t].active ==> !AnotherActive(tariffs, t))
    ensures forall c :: PriceInForce(tariffs', c) == if active && c == tariffs[t].company then Some(tariffs[t].price)
                                                     else PriceInForce(tariffs, c)
  {
    if active {
      ActivateSwaps(tariffs, t);
      assert PriceInForce(tariffs', tariffs[t].company) == Some(tariffs[t].price);
      forall c | c != tariffs[t].company ensures PriceInForce(tariffs', c) == PriceInForce(tariffs, c) {
        SamePrices(tariffs, tariffs', c);
      }
    } else {
      DeactivateNeverActs(tariffs, t);
    }
  }

  lemma UpdatedPrice(tariffs: seq<Tariff>, t: Id, price: int, company: Id)
    requires OneActive(tariffs) && t < |tariffs|
    ensures OneActive(Update(tariffs, t, price))
    ensures PriceInForce(Update(tariffs, t, price), company)
            == if tariffs[t].active && company == tariffs[t].company then Some(price)
               else PriceInForce(tariffs, company)
  {
    var tariffs' := Update(tariffs, t, price);
    var found := FindActive(tariffs, company);
    if found.Some? {
      assert tariffs'[found.value].active && tariffs'[found.value].company == company;
      FoundIsActive(tariffs', found.value);
    }
    if tariffs[t].active {
      FoundIsActive(tariffs, t);
    }
  }
}
