/**
 * find_infrastructure_element_by_uuid: the first record whose
 * Identitaet.Wert is the given uuid, searching the list-valued attributes of a
 * container in attribute order and each list in order. A container is seen
 * here as its attributes in order, each either a list of records or any other
 * value (which may itself be a record). `uuidOf` reads Identitaet.Wert.
 */
module UuidFinder {
  import opened Wrappers

  datatype Attribute<T> = ListValued(elements: seq<T>) | Scalar(value: Option<T>)

  /** The first record of `es` with the uuid. */
  function FirstWithUuid<T>(es: seq<T>, uuidOf: T -> string, uuid: string): Option<T>
  {
    if es == [] then None
    else if uuidOf(es[0]) == uuid then Some(es[0])
    else FirstWithUuid(es[1..], uuidOf, uuid)
  }

  /** The search itself: attribute by attribute, the first match of the
      first list that holds one; other attributes are skipped. */
  function FindByUuid<T>(attrs: seq<Attribute<T>>, uuidOf: T -> string, uuid: string): Option<T>
  {
    if attrs == [] then None
    else
      match attrs[0]
      case Scalar(_) => FindByUuid(attrs[1..], uuidOf, uuid)
      case ListValued(es) =>
        match FirstWithUuid(es, uuidOf, uuid)
        case Some(e) => Some(e)
        case None => FindByUuid(attrs[1..], uuidOf, uuid)
  }

  /** All records held in lists, attribute by attribute, each list in order. */
  function Listed<T>(attrs: seq<Attribute<T>>): seq<T>
  {
    if attrs == [] then []
    else
      match attrs[0]
      case Scalar(_) => Listed(attrs[1..])
      case ListValued(es) => es + Listed(attrs[1..])
  }

  /** The attributes with every non-list attribute dropped. */
  function ListsOnly<T>(attrs: seq<Attribute<T>>): seq<Attribute<T>>
  {
    if attrs == [] then []
    else if attrs[0].Scalar? then ListsOnly(attrs[1..])
    else [attrs[0]] + ListsOnly(attrs[1..])
  }

  /** The first match of a list: None exactly when nothing matches; otherwise
      the record at some index whose uuid matches, after no match. */
  lemma {:induction false} FirstWithUuidSpec<T>(es: seq<T>, uuidOf: T -> string, uuid: string)
    ensures FirstWithUuid(es, uuidOf, uuid).None? <==> forall j :: 0 <= j < |es| ==> uuidOf(es[j]) != uuid
    ensures FirstWithUuid(es, uuidOf, uuid).Some? ==>
      exists j :: 0 <= j < |es| && es[j] == FirstWithUuid(es, uuidOf, uuid).value && uuidOf(es[j]) == uuid
        && forall j' :: 0 <= j' < j ==> uuidOf(es[j']) != uuid
  {
    if es != [] && uuidOf(es[0]) != uuid {
      FirstWithUuidSpec(es[1..], uuidOf, uuid);
      if FirstWithUuid(es, uuidOf, uuid).Some? {
        var j :| 0 <= j < |es[1..]| && es[1..][j] == FirstWithUuid(es, uuidOf, uuid).value && uuidOf(es[1..][j]) == uuid
          && forall j' :: 0 <= j' < j ==> uuidOf(es[1..][j']) != uuid;
        assert es[j + 1] == es[1..][j];
        assert forall j' :: 1 <= j' < j + 1 ==> es[j'] == es[1..][j' - 1];
      } else {
        assert forall j :: 1 <= j < |es| ==> es[j] == es[1..][j - 1];
      }
    }
  }

  /** The nested search finds what a single search over all listed records,
      in attribute order then list order, finds. */
  lemma {:induction false} FindByUuidIsFirstListed<T>(attrs: seq<Attribute<T>>, uuidOf: T -> string, uuid: string)
    ensures FindByUuid(attrs, uuidOf, uuid) == FirstWithUuid(Listed(attrs), uuidOf, uuid)
  {
    if attrs != [] {
      FindByUuidIsFirstListed(attrs[1..], uuidOf, uuid);
      if attrs[0].ListValued? {
        FirstOfConcat(attrs[0].elements, Listed(attrs[1..]), uuidOf, uuid);
      }
    }
  }

  lemma {:induction false} FirstOfConcat<T>(xs: seq<T>, ys: seq<T>, uuidOf: T -> string, uuid: string)
    ensures FirstWithUuid(xs + ys, uuidOf, uuid)
         == if FirstWithUuid(xs, uuidOf, uuid).Some? then FirstWithUuid(xs, uuidOf, uuid) else FirstWithUuid(ys, uuidOf, uuid)
  {
    if xs != [] {
      assert (xs + ys)[1..] == xs[1..] + ys;
      FirstOfConcat(xs[1..], ys, uuidOf, uuid);
    } else {
      assert xs + ys == ys;
    }
  }

  /** None exactly when no list-valued attribute holds a record with the
      uuid; a record held only by a non-list attribute is never found. */
  lemma {:induction false} FindByUuidNone<T>(attrs: seq<Attribute<T>>, uuidOf: T -> string, uuid: string)
    ensures FindByUuid(attrs, uuidOf, uuid).None? <==>
      forall i, j :: 0 <= i < |attrs| && attrs[i].ListValued? && 0 <= j < |attrs[i].elements|
        ==> uuidOf(attrs[i].elements[j]) != uuid
  {
    if attrs != [] {
      FindByUuidNone(attrs[1..], uuidOf, uuid);
      assert forall i :: 1 <= i < |attrs| ==> attrs[i] == attrs[1..][i - 1];
      if attrs[0].ListValued? {
        FirstWithUuidSpec(attrs[0].elements, uuidOf, uuid);
      }
    }
  }

  /** A found record has the uuid and sits in a list at a position before
      which, in attribute order and then list order, no record has it. */
  lemma {:induction false} FindByUuidFirst<T>(attrs: seq<Attribute<T>>, uuidOf: T -> string, uuid: string)
    requires FindByUuid(attrs, uuidOf, uuid).Some?
    ensures var e := FindByUuid(attrs, uuidOf, uuid).value;
      && uuidOf(e) == uuid
      && (exists i, j :: 0 <= i < |attrs| && attrs[i].ListValued? && 0 <= j < |attrs[i].elements|
            && attrs[i].elements[j] == e
            && (forall i', j' :: 0 <= i' < i && attrs[i'].ListValued? && 0 <= j' < |attrs[i'].elements|
                  ==> uuidOf(attrs[i'].elements[j']) != uuid)
            && (forall j' :: 0 <= j' < j ==> uuidOf(attrs[i].elements[j']) != uuid))
  {
    var e := FindByUuid(attrs, uuidOf, uuid).value;
    if attrs[0].ListValued? && FirstWithUuid(attrs[0].elements, uuidOf, uuid).Some? {
      FirstWithUuidSpec(attrs[0].elements, uuidOf, uuid);
      var j :| 0 <= j < |attrs[0].elements| && attrs[0].elements[j] == e && uuidOf(attrs[0].elements[j]) == uuid
        && forall j' :: 0 <= j' < j ==> uuidOf(attrs[0].elements[j']) != uuid;
      assert attrs[0].elements[j] == e;
    } else {
      if attrs[0].ListValued? {
        FirstWithUuidSpec(attrs[0].elements, uuidOf, uuid);
      }
      FindByUuidFirst(attrs[1..], uuidOf, uuid);
      var i, j :| 0 <= i < |attrs[1..]| && attrs[1..][i].ListValued? && 0 <= j < |attrs[1..][i].elements|
        && attrs[1..][i].elements[j] == e
        && (forall i', j' :: 0 <= i' < i && attrs[1..][i'].ListValued? && 0 <= j' < |attrs[1..][i'].elements|
              ==> uuidOf(attrs[1..][i'].elements[j']) != uuid)
        && (forall j' :: 0 <= j' < j ==> uuidOf(attrs[1..][i].elements[j']) != uuid);
      assert forall i' :: 1 <= i' < i + 1 ==> attrs[i'] == attrs[1..][i' - 1];
      assert attrs[i + 1] == attrs[1..][i];
    }
  }

  /** Non-list attributes are never inspected: dropping them, whatever they
      hold, does not change the result. */
  lemma {:induction false} ScalarsIgnored<T>(attrs: seq<Attribute<T>>, uuidOf: T -> string, uuid: string)
    ensures FindByUuid(ListsOnly(attrs), uuidOf, uuid) == FindByUuid(attrs, uuidOf, uuid)
  {
    if attrs != [] {
      ScalarsIgnored(attrs[1..], uuidOf, uuid);
      if attrs[0].ListValued? {
        assert ([attrs[0]] + ListsOnly(attrs[1..]))[1..] == ListsOnly(attrs[1..]);
      }
    }
  }

  /** find_infrastructure_element_by_uuid: the nested loops with early
      return. It has no `modifies` clause, so the container is unchanged. */
  method FindInfrastructureElementByUuid<T>(attrs: seq<Attribute<T>>, uuidOf: T -> string, uuid: string)
    returns (r: Option<T>)
    ensures r == FindByUuid(attrs, uuidOf, uuid)
  {
    var i := 0;
    while i < |attrs|
      invariant 0 <= i <= |attrs|
      invariant FindByUuid(attrs, uuidOf, uuid) == FindByUuid(attrs[i..], uuidOf, uuid)
    {
      assert attrs[i..][1..] == attrs[i + 1..];
      if attrs[i].ListValued? {
        var es := attrs[i].elements;
        var j := 0;
        while j < |es|
          invariant 0 <= j <= |es|
          invariant FirstWithUuid(es, uuidOf, uuid) == FirstWithUuid(es[j..], uuidOf, uuid)
        {
          assert es[j..][1..] == es[j + 1..];
          if uuidOf(es[j]) == uuid {
            return Some(es[j]);
          }
          j := j + 1;
        }
      }
      i := i + 1;
    }
    return None;
  }
}
