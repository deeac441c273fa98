/** PagingInfo.cs as the mutable object it is: `PagingInfo()` sets every field
    to its default, and the bag constructor then overwrites the fields one by
    one and appends one resolved item per raw item to `Items`. The pure
    `Catalog.DecodePaging` is the specification the object is proved against. */
module PagingObjects {
  import opened Wrappers
  import opened Bags
  import Contexts
  import opened Catalog

  class PagingInfo {
    var fullDetailUri: NString
    var items: seq<Item>
    var limit: int32
    var nextPage: NString
    var offset: int32
    var previousPage: NString
    var total: int32

    /** The object's fields as a value. */
    function View(): Paging
      reads this
    {
      Paging(fullDetailUri, items, limit, nextPage, offset, previousPage, total)
    }

    /** `new PagingInfo()` */
    constructor()
      ensures View() == DefaultPaging
    {
      fullDetailUri := Some("");
      items := [];
      limit := 50;
      nextPage := Some("");
      offset := 0;
      previousPage := Some("");
      total := 0;
    }

    /** The body of `PagingInfo(PSObject)` that runs after `this()`. A null bag
        changes nothing. Otherwise the fields are assigned in source order and
        each raw item, resolved, is appended to `items`; the first exception is
        returned, and the object is then only partly written (the constructor
        never returns it). */
    method Load(b: Bag) returns (err: Option<DecodeError>)
      modifies this
      ensures err.None? <==> DecodePaging(b).Ok?
      ensures err.Some? ==> DecodePaging(b) == Err(err.value)
      ensures b.VNull? ==> View() == old(View())
      ensures b.VObj? && err.None? ==>
        View() == DecodePaging(b).value.(items := old(items) + DecodePaging(b).value.items)
    {
      if b.VNull? {
        return None;
      }
      var objs;
      err, objs := LoadFields(b);
      if err.Some? {
        return;
      }
      err := AppendResolved(objs, ResolveItem);
      assert Resolutions(objs, ResolveItem) == seq(|objs|, j requires 0 <= j < |objs| => ResolveItem(objs[j]));
    }

    /** The assignments of `PagingInfo(PSObject)` before the `foreach`, in
        source order: every field but `items`, and the raw items cast to bags.
        The first exception is returned. */
    method LoadFields(b: Bag) returns (err: Option<DecodeError>, objs: seq<Bag>)
      requires b.VObj?
      modifies this
      ensures err.Some? ==> DecodePaging(b) == Err(err.value)
      ensures err.None? ==>
        && StringOr(b, "href", Some("")) == Ok(fullDetailUri)
        && ArrayOr(b, "items").Ok? && CastBags("items", ArrayOr(b, "items").value) == Ok(objs)
        && limit == IntOrZero(b, "limit")
        && StringOr(b, "next", Some("")) == Ok(nextPage)
        && offset == IntOrZero(b, "offset")
        && StringOr(b, "previous", Some("")) == Ok(previousPage)
        && total == IntOrZero(b, "total")
      ensures items == old(items)
    {
      var href := StringOr(b, "href", Some(""));
      if href.Err? {
        return Some(href.error), [];
      }
      fullDetailUri := href.value;
      var raw := ArrayOr(b, "items");
      if raw.Err? {
        return Some(raw.error), [];
      }
      var bags := CastBags("items", raw.value);
      if bags.Err? {
        return Some(bags.error), [];
      }
      objs := bags.value;
      limit := IntOrZero(b, "limit");
      var next := StringOr(b, "next", Some(""));
      if next.Err? {
        return Some(next.error), objs;
      }
      nextPage := next.value;
      offset := IntOrZero(b, "offset");
      var previous := StringOr(b, "previous", Some(""));
      if previous.Err? {
        return Some(previous.error), objs;
      }
      previousPage := previous.value;
      total := IntOrZero(b, "total");
      err := None;
    }

    /** The `foreach` over the raw items: each one resolved and appended to
        `items`, in order, until the first exception. The resolver is a
        parameter; `Load` passes `ResolveItem`. */
    method AppendResolved(objs: seq<Bag>, resolve: Bag -> Decoded<Item>) returns (err: Option<DecodeError>)
      modifies this
      ensures err.None? <==> Collect(Resolutions(objs, resolve)).Ok?
      ensures err.Some? ==> Collect(Resolutions(objs, resolve)) == Err(err.value)
      ensures err.None? ==> items == old(items) + Collect(Resolutions(objs, resolve)).value
      ensures fullDetailUri == old(fullDetailUri) && limit == old(limit) && nextPage == old(nextPage)
      ensures offset == old(offset) && previousPage == old(previousPage) && total == old(total)
    {
      ghost var rs := Resolutions(objs, resolve);
      ghost var start := items;
      var i := 0;
      while i < |objs|
        invariant 0 <= i <= |objs|
        invariant Collect(rs[..i]).Ok? && items == start + Collect(rs[..i]).value
        invariant fullDetailUri == old(fullDetailUri) && limit == old(limit) && nextPage == old(nextPage)
        invariant offset == old(offset) && previousPage == old(previousPage) && total == old(total)
      {
        var r := resolve(objs[i]);
        CollectStep(rs, i);
        if r.Err? {
          return Some(r.error);
        }
        items := items + [r.value];
        i := i + 1;
      }
      assert rs[..i] == rs;
      return None;
    }
  }

  /** The resolution of every raw item, in order. */
  ghost function Resolutions(objs: seq<Bag>, resolve: Bag -> Decoded<Item>): (rs: seq<Decoded<Item>>)
    ensures |rs| == |objs| && forall j :: 0 <= j < |objs| ==> rs[j] == resolve(objs[j])
  {
    seq(|objs|, j requires 0 <= j < |objs| => resolve(objs[j]))
  }

  /** `new PagingInfo(Object)`: a fresh object, loaded from the bag. */
  method FromBag(b: Bag) returns (p: PagingInfo, err: Option<DecodeError>)
    ensures fresh(p)
    ensures err.None? <==> DecodePaging(b).Ok?
    ensures err.Some? ==> DecodePaging(b) == Err(err.value)
    ensures err.None? ==> p.View() == DecodePaging(b).value
  {
    p := new PagingInfo();
    err := p.Load(b);
  }

  /** `new PagingInfo(Object, ItemType)`: the page stored under the kind's
      plural key, loaded as the single-bag constructor would. */
  method FromEnvelope(env: Bag, t: Contexts.ItemType) returns (p: PagingInfo, err: Option<DecodeError>)
    ensures fresh(p)
    ensures err.None? <==> DecodePagingIn(env, t).Ok?
    ensures err.Some? ==> DecodePagingIn(env, t) == Err(err.value)
    ensures err.None? ==> p.View() == DecodePagingIn(env, t).value
  {
    var sub := ParseMultiPageObject(env, t);
    if sub.Err? {
      p := new PagingInfo();
      err := Some(sub.error);
    } else {
      p, err := FromBag(sub.value);
    }
  }
}
