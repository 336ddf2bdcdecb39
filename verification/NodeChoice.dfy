/** Choosing a node for a job. */
module NodeChoice {
  import opened Common

  datatype ConditionStatus = True | False | Unknown
  datatype ConditionType = NodeReady | OtherCondition(name: string)
  datatype Condition = Condition(kind: ConditionType, status: ConditionStatus)

  datatype Effect = NoSchedule | OtherEffect(name: string)
  datatype Taint = Taint(key: string, value: string, effect: Effect)

  datatype Node = Node(
    conditions: seq<Condition>,
    cpu: real,
    memory: real,
    taints: seq<Taint>,
    labels: map<string, string>)

  /** A request is Unset when its text is empty or does not parse as a quantity. */
  datatype Request = Unset | Amount(quantity: real)

  datatype Toleration = Toleration(key: string, value: string)

  datatype JobSpec = JobSpec(
    cpu: Request,
    memory: Request,
    tolerations: seq<Toleration>,
    nodeSelector: map<string, string>)

  const MEMORY_SCALE := 137438953472.0 // 128 GiB, in bytes

  // ---------- Eligibility ----------

  /** The first Ready condition says that the node is ready. */
  ghost predicate IsReady(node: Node) {
    exists i | 0 <= i < |node.conditions| ::
      && node.conditions[i] == Condition(NodeReady, True)
      && forall j | 0 <= j < i :: !node.conditions[j].kind.NodeReady?
  }

  ghost predicate Fits(available: real, request: Request) {
    request.Amount? ==> request.quantity <= available
  }

  ghost predicate Tolerates(t: Toleration, taint: Taint) {
    t.key == taint.key && (t.value == taint.value || t.value == "")
  }

  ghost predicate IsTolerated(tolerations: seq<Toleration>, taint: Taint) {
    exists i | 0 <= i < |tolerations| :: Tolerates(tolerations[i], taint)
  }

  ghost predicate Meets(node: Node, spec: JobSpec) {
    && Fits(node.cpu, spec.cpu)
    && Fits(node.memory, spec.memory)
    && forall i | 0 <= i < |node.taints| ::
         node.taints[i].effect.NoSchedule? ==> IsTolerated(spec.tolerations, node.taints[i])
  }

  ghost predicate IsEligible(node: Node, spec: JobSpec) {
    IsReady(node) && Meets(node, spec)
  }

  method IsNodeReady(node: Node) returns (ready: bool)
    ensures ready <==> IsReady(node)
  {
    for i := 0 to |node.conditions|
      invariant forall j | 0 <= j < i :: !node.conditions[j].kind.NodeReady?
    {
      var condition := node.conditions[i];
      if condition.kind.NodeReady? {
        return condition.status == True;
      }
    }
    return false;
  }

  method HasToleration(tolerations: seq<Toleration>, taint: Taint) returns (found: bool)
    ensures found <==> IsTolerated(tolerations, taint)
  {
    for i := 0 to |tolerations|
      invariant forall j | 0 <= j < i :: !Tolerates(tolerations[j], taint)
    {
      var t := tolerations[i];
      if t.key == taint.key && (t.value == taint.value || t.value == "") {
        return true;
      }
    }
    return false;
  }

  method MatchesRequirements(node: Node, spec: JobSpec) returns (matches: bool)
    ensures matches <==> Meets(node, spec)
  {
    if spec.cpu.Amount? && node.cpu - spec.cpu.quantity < 0.0 {
      return false;
    }
    if spec.memory.Amount? && node.memory - spec.memory.quantity < 0.0 {
      return false;
    }
    for i := 0 to |node.taints|
      invariant forall j | 0 <= j < i ::
                  node.taints[j].effect.NoSchedule? ==> IsTolerated(spec.tolerations, node.taints[j])
    {
      var taint := node.taints[i];
      if taint.effect == NoSchedule {
        var tolerated := HasToleration(spec.tolerations, taint);
        if !tolerated {
          return false;
        }
      }
    }
    return true;
  }

  /** The first Ready condition decides, whatever comes before or after it. */
  lemma FirstReadyDecides(node: Node, before: seq<Condition>, status: ConditionStatus, after: seq<Condition>)
    requires forall c | c in before :: !c.kind.NodeReady?
    requires node.conditions == before + [Condition(NodeReady, status)] + after
    ensures IsReady(node) <==> status == True
  {
    assert node.conditions[|before|] == Condition(NodeReady, status);
    assert forall i | 0 <= i < |before| :: node.conditions[i] == before[i] && before[i] in before;
  }

  /** A ready node without taints is eligible exactly if it has no less than each amount asked. */
  lemma ExactFitIsEligible(node: Node, spec: JobSpec)
    requires IsReady(node) && node.taints == []
    ensures IsEligible(node, spec)
            <==> (spec.cpu.Unset? || spec.cpu.quantity <= node.cpu)
                 && (spec.memory.Unset? || spec.memory.quantity <= node.memory)
  {
  }

  /** One more taint keeps a node eligible exactly if it does not forbid scheduling, or the job
      tolerates its key with that value or with none. */
  lemma TaintedStaysEligibleIff(node: Node, spec: JobSpec, taint: Taint)
    requires IsEligible(node, spec)
    ensures IsEligible(node.(taints := node.taints + [taint]), spec)
            <==> taint.effect != NoSchedule
                 || Toleration(taint.key, taint.value) in spec.tolerations
                 || Toleration(taint.key, "") in spec.tolerations
  {
    var tainted := node.(taints := node.taints + [taint]);
    assert IsReady(tainted) by {
      assert tainted.conditions == node.conditions;
      var i :| 0 <= i < |node.conditions| && node.conditions[i] == Condition(NodeReady, True)
               && forall j | 0 <= j < i :: !node.conditions[j].kind.NodeReady?;
    }
    assert tainted.taints[|node.taints|] == taint;
    TolerationIn(spec.tolerations, taint);
  }

  lemma TolerationIn(tolerations: seq<Toleration>, taint: Taint)
    ensures IsTolerated(tolerations, taint)
            <==> Toleration(taint.key, taint.value) in tolerations || Toleration(taint.key, "") in tolerations
  {
    if IsTolerated(tolerations, taint) {
      var i :| 0 <= i < |tolerations| && Tolerates(tolerations[i], taint);
      assert tolerations[i] == Toleration(taint.key, tolerations[i].value);
    }
  }

  // ---------- Score ----------

  /** A quantity is read as a whole number, rounded up. */
  function Whole(quantity: real): (n: int)
    ensures n as real - 1.0 < quantity <= n as real
  {
    -((-quantity).Floor)
  }

  /** The selector entries that cost a node ten points.  The code looks the selector's values
      up as label names, and compares with the selector's entry of that name, if any. */
  predicate IsMismatch(selector: map<string, string>, labels: map<string, string>, k: string) {
    k in selector && selector[k] in labels && labels[selector[k]] != Lookup(selector, selector[k])
  }

  ghost function Mismatches(selector: map<string, string>, labels: map<string, string>): set<string> {
    set k | k in selector && IsMismatch(selector, labels, k)
  }

  function Lookup(m: map<string, string>, k: string): string {
    if k in m then m[k] else ""
  }

  function Usage(node: Node): real {
    (1.0 - Whole(node.cpu) as real / 100.0 + (1.0 - Whole(node.memory) as real / MEMORY_SCALE)) / 2.0
  }

  ghost function Score(node: Node, spec: JobSpec): real {
    Usage(node) + 10.0 * |Mismatches(spec.nodeSelector, node.labels)| as real
  }

  /** Visiting one more key counts it if it is among those counted. */
  lemma Visit(all: set<string>, todo: set<string>, k: string)
    requires k in todo
    ensures |all - (todo - {k})| == |all - todo| + if k in all then 1 else 0
  {
    assert all - (todo - {k}) == if k in all then (all - todo) + {k} else all - todo;
  }

  method CountMismatches(selector: map<string, string>, labels: map<string, string>) returns (penalty: real)
    ensures penalty == 10.0 * |Mismatches(selector, labels)| as real
  {
    penalty := 0.0;
    ghost var all := Mismatches(selector, labels);
    var todo := selector.Keys;
    while todo != {}
      invariant todo <= selector.Keys
      invariant penalty == 10.0 * |all - todo| as real
    {
      var k :| k in todo;
      var name := selector[k];
      Visit(all, todo, k);
      todo := todo - {k};
      if name in labels && labels[name] != Lookup(selector, name) {
        penalty := penalty + 10.0;
      }
    }
    assert all - todo == all;
  }

  method CalculateNodeScore(node: Node, spec: JobSpec) returns (score: real)
    ensures score == Score(node, spec)
  {
    var cpuUsage := 1.0 - Whole(node.cpu) as real / 100.0;
    var memUsage := 1.0 - Whole(node.memory) as real / MEMORY_SCALE;
    score := (cpuUsage + memUsage) / 2.0;
    var penalty := CountMismatches(spec.nodeSelector, node.labels);
    score := score + penalty;
  }

  // ---------- The choice ----------

  /** `i` is the earliest eligible node of least score. */
  ghost predicate IsBest(nodes: seq<Node>, spec: JobSpec, i: int) {
    && 0 <= i < |nodes| && IsEligible(nodes[i], spec)
    && (forall j | 0 <= j < |nodes| && IsEligible(nodes[j], spec) :: Score(nodes[i], spec) <= Score(nodes[j], spec))
    && (forall j | 0 <= j < i && IsEligible(nodes[j], spec) :: Score(nodes[i], spec) < Score(nodes[j], spec))
  }

  /** Returns the index of the chosen node; None is ErrNoSuitableNode. */
  method SelectNode(nodes: seq<Node>, spec: JobSpec) returns (selected: Option<nat>)
    ensures selected.Some? ==> IsBest(nodes, spec, selected.value)
    ensures selected.None? <==> forall j | 0 <= j < |nodes| :: !IsEligible(nodes[j], spec)
  {
    selected := None;
    var minScore := 0.0;
    for i := 0 to |nodes|
      invariant selected.None? ==> forall j | 0 <= j < i :: !IsEligible(nodes[j], spec)
      invariant selected.Some? ==> selected.value < i && IsBest(nodes[..i], spec, selected.value)
      invariant selected.Some? ==> minScore == Score(nodes[selected.value], spec)
    {
      var node := nodes[i];
      assert forall j | 0 <= j < i :: nodes[..i + 1][j] == nodes[..i][j];
      var ready := IsNodeReady(node);
      if !ready {
        continue;
      }
      var matches := MatchesRequirements(node, spec);
      if !matches {
        continue;
      }
      var score := CalculateNodeScore(node, spec);
      if selected == None || score < minScore {
        selected := Some(i);
        minScore := score;
      }
    }
    assert nodes[..|nodes|] == nodes;
  }

  /** With no selector, no eligible node beats the chosen one in both resources, counted in
      whole units. */
  lemma ChosenIsNotDominated(nodes: seq<Node>, spec: JobSpec, i: nat, j: nat)
    requires spec.nodeSelector == map[]
    requires IsBest(nodes, spec, i) && j < |nodes| && IsEligible(nodes[j], spec)
    requires Whole(nodes[j].cpu) >= Whole(nodes[i].cpu) && Whole(nodes[j].memory) >= Whole(nodes[i].memory)
    ensures Whole(nodes[j].cpu) == Whole(nodes[i].cpu) && Whole(nodes[j].memory) == Whole(nodes[i].memory)
    ensures i <= j
  {
    assert Mismatches(spec.nodeSelector, nodes[i].labels) == {};
    assert Mismatches(spec.nodeSelector, nodes[j].labels) == {};
  }

  lemma ScoreWithoutSelector(node: Node, spec: JobSpec)
    requires spec.nodeSelector == map[]
    ensures Score(node, spec) == Usage(node)
  {
    assert Mismatches(spec.nodeSelector, node.labels) == {};
  }

  /** Without a selector, a node scores below another exactly if what it has more in units of
      a hundred CPUs outweighs what it has less in units of 128 GiB, or the other way round. */
  lemma ScoresBelowIff(a: Node, b: Node, spec: JobSpec)
    requires spec.nodeSelector == map[]
    ensures Score(b, spec) < Score(a, spec)
            <==> (Whole(b.cpu) - Whole(a.cpu)) as real / 100.0
                 + (Whole(b.memory) - Whole(a.memory)) as real / (128.0 * 1024.0 * 1024.0 * 1024.0) > 0.0
  {
    ScoreWithoutSelector(a, spec);
    ScoreWithoutSelector(b, spec);
  }

  /** Each entry of the selector costs ten if the node has a label named by its value, and that
      label differs from the selector's entry of the same name (from nothing, if there is none). */
  lemma SelectorCosts(node: Node, spec: JobSpec)
    ensures var selector := spec.nodeSelector;
            var charged :=
              set k | k in selector && selector[k] in node.labels
                      && node.labels[selector[k]] != if selector[k] in selector then selector[selector[k]] else "";
            Score(node, spec) == Score(node, spec.(nodeSelector := map[])) + 10.0 * |charged| as real
  {
    ScoreWithoutSelector(node, spec.(nodeSelector := map[]));
    var selector := spec.nodeSelector;
    assert Mismatches(selector, node.labels)
        == set k | k in selector && selector[k] in node.labels
               && node.labels[selector[k]] != if selector[k] in selector then selector[selector[k]] else "";
  }

  /** So the label a selector asks about does not count, unless its name is also one of the
      selector's values: a node labelled zone=b scores the same as one labelled zone=a for a job
      that selects zone=a. */
  lemma SelectedLabelIsIgnored(node: Node, spec: JobSpec, key: string, value: string)
    requires key !in spec.nodeSelector.Values
    ensures Score(node.(labels := node.labels[key := value]), spec) == Score(node, spec)
  {
    var relabelled := node.labels[key := value];
    assert forall k | k in spec.nodeSelector :: spec.nodeSelector[k] != key;
    assert Mismatches(spec.nodeSelector, relabelled) == Mismatches(spec.nodeSelector, node.labels);
  }

  /** Without a selector, more of both resources makes a node better exactly if it shows in the
      whole units of one of them. */
  lemma LargerIsBetterIff(a: Node, b: Node, spec: JobSpec)
    requires spec.nodeSelector == map[] && b.cpu > a.cpu && b.memory > a.memory
    ensures Score(b, spec) < Score(a, spec) <==> Whole(b.cpu) != Whole(a.cpu) || Whole(b.memory) != Whole(a.memory)
  {
    ScoreWithoutSelector(a, spec);
    ScoreWithoutSelector(b, spec);
  }

  /** In a choice, such a node loses only to an earlier one with the same whole units. */
  lemma LargerNodeLosesOnlyToRounding(nodes: seq<Node>, spec: JobSpec, i: nat, j: nat)
    requires spec.nodeSelector == map[]
    requires IsBest(nodes, spec, i) && j < |nodes| && IsEligible(nodes[j], spec)
    requires nodes[j].cpu > nodes[i].cpu && nodes[j].memory > nodes[i].memory
    ensures i < j && Whole(nodes[j].cpu) == Whole(nodes[i].cpu) && Whole(nodes[j].memory) == Whole(nodes[i].memory)
  {
    ChosenIsNotDominated(nodes, spec, i, j);
  }

  /** A whole number of bytes is read as it is. */
  predicate IsWhole(quantity: real) {
    quantity.Floor as real == quantity
  }

  lemma WholeIsKept(quantity: real)
    requires IsWhole(quantity)
    ensures Whole(quantity) as real == quantity
  {
    assert (-quantity).Floor == -(quantity.Floor);
  }

  /** Memory comes in whole bytes: then no eligible node is larger in both than the chosen one. */
  lemma WholeBytesAreNotDominated(nodes: seq<Node>, spec: JobSpec, i: nat, j: nat)
    requires spec.nodeSelector == map[]
    requires IsBest(nodes, spec, i) && j < |nodes| && IsEligible(nodes[j], spec)
    requires IsWhole(nodes[i].memory) && IsWhole(nodes[j].memory)
    ensures !(nodes[j].cpu > nodes[i].cpu && nodes[j].memory > nodes[i].memory)
  {
    WholeIsKept(nodes[i].memory);
    WholeIsKept(nodes[j].memory);
    if nodes[j].cpu > nodes[i].cpu && nodes[j].memory > nodes[i].memory {
      LargerIsBetterIff(nodes[i], nodes[j], spec);
    }
  }

  /** With parts of bytes the larger of two nodes can lose to the earlier one. */
  lemma RoundingHidesLargerNode()
    ensures var ready := [Condition(NodeReady, True)];
            var small := Node(ready, 0.25, 0.25, [], map[]);
            var large := Node(ready, 0.75, 0.75, [], map[]);
            IsBest([small, large], JobSpec(Unset, Unset, [], map[]), 0)
  {
    var ready := [Condition(NodeReady, True)];
    var small := Node(ready, 0.25, 0.25, [], map[]);
    var large := Node(ready, 0.75, 0.75, [], map[]);
    assert small.conditions[0] == Condition(NodeReady, True) && large.conditions[0] == Condition(NodeReady, True);
    assert Whole(0.25) == 1 && Whole(0.75) == 1;
  }
}
