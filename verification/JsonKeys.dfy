/** The check that a materialized value is JSON a codec can preserve: no cycle
    and no `__proto__` key, over objects that may be shared. */
module JsonKeys {

  class JsonObject {
    /** The nested values, in key order. */
    var values: seq<JsonValue>
    var ownsProto: bool
  }

  /** Anything but an object, `null` included, is a scalar here. */
  datatype JsonValue = Scalar | Nested(target: JsonObject)

  /** The objects on the way from the root to the value being checked. */
  class ParentSet {
    var members: set<JsonObject>

    constructor ()
      ensures members == {}
    {
      members := {};
    }
  }

  /** Every object a member of the graph holds is a member too. */
  ghost predicate Closed(graph: set<JsonObject>)
    reads graph
  {
    forall o, v | o in graph && v in o.values && v.Nested? :: v.target in graph
  }

  ghost predicate Holds(o: JsonObject, child: JsonObject)
    reads o
  {
    Nested(child) in o.values
  }

  ghost predicate StepsTo(from: JsonObject, to: JsonObject, n: nat, graph: set<JsonObject>)
    requires from in graph
    reads graph
  {
    if n == 0 then from == to
    else exists child | child in graph :: Holds(from, child) && StepsTo(child, to, n - 1, graph)
  }

  ghost predicate Reaches(from: JsonObject, to: JsonObject, graph: set<JsonObject>)
    requires from in graph
    reads graph
  {
    exists n: nat :: StepsTo(from, to, n, graph)
  }

  ghost predicate OnCycle(o: JsonObject, graph: set<JsonObject>)
    requires o in graph
    reads graph
  {
    exists n: nat :: n > 0 && StepsTo(o, o, n, graph)
  }

  ghost predicate Preserved(o: JsonObject, parents: set<JsonObject>, graph: set<JsonObject>)
    requires o in graph
    reads graph
  {
    o !in parents && !o.ownsProto && !OnCycle(o, graph)
  }

  /** Nothing the value reaches is a parent, owns `__proto__` or is on a cycle.
      Reaching an object twice is no obstacle. */
  ghost predicate Supported(value: JsonValue, parents: set<JsonObject>, graph: set<JsonObject>)
    requires value.Nested? ==> value.target in graph
    reads graph
  {
    value.Nested? ==> forall o | o in graph && Reaches(value.target, o, graph) :: Preserved(o, parents, graph)
  }

  /** The same of an object's first `n` values. */
  ghost predicate AllSupported(o: JsonObject, n: nat, parents: set<JsonObject>, graph: set<JsonObject>)
    requires Closed(graph) && o in graph && n <= |o.values|
    reads graph
  {
    forall i | 0 <= i < n :: Supported(o.values[i], parents, graph)
  }

  lemma ReachesByChild(from: JsonObject, to: JsonObject, graph: set<JsonObject>)
    requires from in graph
    ensures Reaches(from, to, graph) <==>
            from == to || exists child | child in graph :: Holds(from, child) && Reaches(child, to, graph)
    ensures from == to ==>
              (OnCycle(from, graph) <==>
               exists child | child in graph :: Holds(from, child) && Reaches(child, to, graph))
  {
    if from == to {
      assert StepsTo(from, to, 0, graph);
    }
    forall n: nat | n > 0 && StepsTo(from, to, n, graph)
      ensures exists child | child in graph :: Holds(from, child) && Reaches(child, to, graph)
    {
      var child :| child in graph && Holds(from, child) && StepsTo(child, to, n - 1, graph);
    }
    forall child | child in graph && Holds(from, child) && Reaches(child, to, graph)
      ensures exists n: nat :: n > 0 && StepsTo(from, to, n, graph)
    {
      var n: nat :| StepsTo(child, to, n, graph);
      assert StepsTo(from, to, n + 1, graph);
    }
  }

  /** What one visit decides, and what it leaves to its children. */
  lemma SupportedByChild(o: JsonObject, parents: set<JsonObject>, graph: set<JsonObject>)
    requires Closed(graph) && o in graph
    ensures Supported(Nested(o), parents, graph) <==>
            && o !in parents
            && !o.ownsProto
            && AllSupported(o, |o.values|, parents + {o}, graph)
  {
    ReachesByChild(o, o, graph);
    if Supported(Nested(o), parents, graph) {
      assert Preserved(o, parents, graph);
      forall i, y | 0 <= i < |o.values| && o.values[i].Nested? && y in graph && Reaches(o.values[i].target, y, graph)
        ensures Preserved(y, parents + {o}, graph)
      {
        assert Holds(o, o.values[i].target);
        ReachesByChild(o, y, graph);
      }
    }
    if o !in parents && !o.ownsProto && AllSupported(o, |o.values|, parents + {o}, graph) {
      forall y, child | y in graph && child in graph && Holds(o, child) && Reaches(child, y, graph)
        ensures Preserved(y, parents + {o}, graph)
      {
        var i :| 0 <= i < |o.values| && o.values[i] == Nested(child);
        assert Supported(o.values[i], parents + {o}, graph);
      }
      forall y | y in graph && Reaches(o, y, graph) ensures Preserved(y, parents, graph) {
        ReachesByChild(o, y, graph);
      }
    }
  }

  /** Ends on every finite graph, cyclic ones included: each nested visit has one
      parent more. The shared set is as it was on every return. */
  method HasSupportedJsonKeys(value: JsonValue, parents: ParentSet, ghost graph: set<JsonObject>)
    returns (supported: bool)
    requires Closed(graph) && (value.Nested? ==> value.target in graph)
    modifies parents
    ensures parents.members == old(parents.members)
    ensures supported <==> Supported(value, old(parents.members), graph)
    decreases graph - parents.members, 0
  {
    if value.Scalar? {
      return true;
    }
    var node := value.target;
    SupportedByChild(node, parents.members, graph);
    if node in parents.members || node.ownsProto {
      return false;
    }
    parents.members := parents.members + {node};
    supported := EveryValue(node, parents, graph);
    parents.members := parents.members - {node};
  }

  /** Stops at the first value that is not supported. */
  method EveryValue(node: JsonObject, parents: ParentSet, ghost graph: set<JsonObject>)
    returns (supported: bool)
    requires Closed(graph) && node in graph
    modifies parents
    ensures parents.members == old(parents.members)
    ensures supported <==> AllSupported(node, |node.values|, old(parents.members), graph)
    decreases graph - parents.members, 1
  {
    ghost var before := parents.members;
    supported := true;
    var i := 0;
    while i < |node.values| && supported
      invariant 0 <= i <= |node.values|
      invariant parents.members == before
      invariant supported <==> AllSupported(node, i, before, graph)
    {
      supported := HasSupportedJsonKeys(node.values[i], parents, graph);
      i := i + 1;
    }
  }

  /** From the root, with no parents: the value is accepted exactly when nothing
      it reaches owns `__proto__` or is on a cycle. */
  method IsSupportedJson(value: JsonValue, ghost graph: set<JsonObject>) returns (supported: bool)
    requires Closed(graph) && (value.Nested? ==> value.target in graph)
    ensures supported <==>
            (value.Nested? ==>
               forall o | o in graph && Reaches(value.target, o, graph) :: !o.ownsProto && !OnCycle(o, graph))
  {
    var parents := new ParentSet();
    supported := HasSupportedJsonKeys(value, parents, graph);
    assert value.Nested? ==> forall o | o in graph && Reaches(value.target, o, graph) ::
        Preserved(o, {}, graph) <==> !o.ownsProto && !OnCycle(o, graph);
  }

  /** Two ways down to the same object are no cycle: a value over accepted
      values is accepted, however much they share. */
  lemma SharingIsAccepted(top: JsonObject, graph: set<JsonObject>)
    requires Closed(graph) && top in graph && !top.ownsProto
    requires forall i | 0 <= i < |top.values| :: Supported(top.values[i], {}, graph)
    requires forall i | 0 <= i < |top.values| && top.values[i].Nested? :: !Reaches(top.values[i].target, top, graph)
    ensures Supported(Nested(top), {}, graph)
  {
    forall i | 0 <= i < |top.values| ensures Supported(top.values[i], {} + {top}, graph) {
      if top.values[i].Nested? {
        forall o | o in graph && Reaches(top.values[i].target, o, graph) ensures Preserved(o, {} + {top}, graph) {
          assert Preserved(o, {}, graph);
        }
      }
    }
    SupportedByChild(top, {}, graph);
  }
}
