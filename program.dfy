/**
 * Structural comparisons between nodes of the model language's syntax tree.
 * Each node kind implements the six operators <, <=, >, >=, ==, != against
 * an arbitrary other node; binary expressions and sequences compare
 * componentwise, and return a fixed answer against a node of another kind.
 */
module Program {

  /** The operator symbol of a binary expression; only its equality matters. */
  datatype Operator = Operator(code: int)

  /**
   * A syntax tree: binary expressions, sequences of statements, and every
   * other kind of node, whose comparison operators are not modelled here.
   */
  datatype Expression =
    | Binary(left: Expression, op: Operator, right: Expression)
    | Sequence(head: Expression, tail: Expression)
    | Leaf(id: int)

  /** The six comparison operators. */
  datatype Comparison = Lt | Le | Gt | Ge | Eq | Ne

  /**
   * How a node of another kind (a leaf here) compares with any node: the
   * virtual operators of those node kinds, supplied from outside.
   */
  type LeafComparator = (Comparison, int, Expression) -> bool

  /** Dispatches the comparison `x c y` on the dynamic kind of x. */
  function Compare(c: Comparison, x: Expression, y: Expression, leaf: LeafComparator): bool
    decreases x, 1
  {
    match x
    case Binary(_, _, _) => BinaryCompare(c, x, y, leaf)
    case Sequence(_, _) => SequenceCompare(c, x, y, leaf)
    case Leaf(id) => leaf(c, id, y)
  }

  /**
   * The six operators of a binary expression x. Against another binary
   * expression, the ordering operators and == require the same operator
   * and the same comparison on both operands, and != holds when the
   * operators differ or either operand compares !=. Against any other kind
   * of node, != holds and every other operator fails.
   */
  function BinaryCompare(c: Comparison, x: Expression, y: Expression, leaf: LeafComparator): (r: bool)
    requires x.Binary?
    decreases x, 0
    ensures !y.Binary? ==> (r <==> c == Ne)
    ensures y.Binary? && c != Ne ==>
      (r <==> x.op == y.op && Compare(c, x.left, y.left, leaf) && Compare(c, x.right, y.right, leaf))
    ensures y.Binary? && c == Ne && x.op != y.op ==> r
  {
    match y
    case Binary(yl, yop, yr) =>
      (match c
       case Lt => x.op == yop && Compare(Lt, x.left, yl, leaf) && Compare(Lt, x.right, yr, leaf)
       case Le => x.op == yop && Compare(Le, x.left, yl, leaf) && Compare(Le, x.right, yr, leaf)
       case Gt => x.op == yop && Compare(Gt, x.left, yl, leaf) && Compare(Gt, x.right, yr, leaf)
       case Ge => x.op == yop && Compare(Ge, x.left, yl, leaf) && Compare(Ge, x.right, yr, leaf)
       case Eq => x.op == yop && Compare(Eq, x.left, yl, leaf) && Compare(Eq, x.right, yr, leaf)
       case Ne => x.op != yop || Compare(Ne, x.left, yl, leaf) || Compare(Ne, x.right, yr, leaf))
    case _ => c == Ne
  }

  /**
   * The six operators of a sequence x. Against another sequence, the
   * ordering operators and == compare head with head and tail with tail,
   * and != holds when either the heads or the tails compare !=. Against
   * any other kind of node, != holds and every other operator fails.
   */
  function SequenceCompare(c: Comparison, x: Expression, y: Expression, leaf: LeafComparator): (r: bool)
    requires x.Sequence?
    decreases x, 0
    ensures !y.Sequence? ==> (r <==> c == Ne)
    ensures y.Sequence? && c != Ne ==>
      (r <==> Compare(c, x.head, y.head, leaf) && Compare(c, x.tail, y.tail, leaf))
    ensures y.Sequence? && c == Ne ==>
      (r <==> Compare(Ne, x.head, y.head, leaf) || Compare(Ne, x.tail, y.tail, leaf))
  {
    match y
    case Sequence(yh, yt) =>
      (match c
       case Lt => Compare(Lt, x.head, yh, leaf) && Compare(Lt, x.tail, yt, leaf)
       case Le => Compare(Le, x.head, yh, leaf) && Compare(Le, x.tail, yt, leaf)
       case Gt => Compare(Gt, x.head, yh, leaf) && Compare(Gt, x.tail, yt, leaf)
       case Ge => Compare(Ge, x.head, yh, leaf) && Compare(Ge, x.tail, yt, leaf)
       case Eq => Compare(Eq, x.head, yh, leaf) && Compare(Eq, x.tail, yt, leaf)
       case Ne => Compare(Ne, x.head, yh, leaf) || Compare(Ne, x.tail, yt, leaf))
    case _ => c == Ne
  }

  /** Leaves answer != exactly when they do not answer ==. */
  ghost predicate LeafNeIsNotEq(leaf: LeafComparator) {
    forall id, y :: leaf(Ne, id, y) == !leaf(Eq, id, y)
  }

  /** Every leaf is == to itself. */
  ghost predicate LeafEqReflexive(leaf: LeafComparator) {
    forall id :: leaf(Eq, id, Leaf(id))
  }

  /** A leaf is == only to the very same leaf. */
  ghost predicate LeafEqIsIdentity(leaf: LeafComparator) {
    forall id, y :: leaf(Eq, id, y) ==> y == Leaf(id)
  }

  /** No leaf compares < (or >) with itself. */
  ghost predicate LeafStrictIrreflexive(leaf: LeafComparator, c: Comparison) {
    forall id :: !leaf(c, id, Leaf(id))
  }

  /** Whenever a leaf compares < it also compares <= (and likewise > and >=). */
  ghost predicate LeafStrictImpliesWeak(leaf: LeafComparator, strict: Comparison, weak: Comparison) {
    forall id, y :: leaf(strict, id, y) ==> leaf(weak, id, y)
  }

  /**
   * If != is the negation of == on the leaves, it is the negation of == on
   * whole trees.
   */
  lemma {:induction false} NeIsNotEq(x: Expression, y: Expression, leaf: LeafComparator)
    requires LeafNeIsNotEq(leaf)
    ensures Compare(Ne, x, y, leaf) == !Compare(Eq, x, y, leaf)
  {
    match x
    case Binary(l, op, r) =>
      if y.Binary? {
        NeIsNotEq(l, y.left, leaf);
        NeIsNotEq(r, y.right, leaf);
      }
    case Sequence(h, t) =>
      if y.Sequence? {
        NeIsNotEq(h, y.head, leaf);
        NeIsNotEq(t, y.tail, leaf);
      }
    case Leaf(_) =>
  }

  /** If every leaf is == to itself, every tree is == to itself. */
  lemma {:induction false} EqReflexive(x: Expression, leaf: LeafComparator)
    requires LeafEqReflexive(leaf)
    ensures Compare(Eq, x, x, leaf)
  {
    match x
    case Binary(l, _, r) =>
      EqReflexive(l, leaf);
      EqReflexive(r, leaf);
    case Sequence(h, t) =>
      EqReflexive(h, leaf);
      EqReflexive(t, leaf);
    case Leaf(_) =>
  }

  /**
   * If == on leaves is identity, == on trees is structural equality: both
   * directions, given reflexivity on the leaves for the converse.
   */
  lemma {:induction false} EqIsIdentity(x: Expression, y: Expression, leaf: LeafComparator)
    requires LeafEqIsIdentity(leaf) && LeafEqReflexive(leaf)
    ensures Compare(Eq, x, y, leaf) <==> x == y
  {
    if x == y {
      EqReflexive(x, leaf);
    } else {
      match x
      case Binary(l, _, r) =>
        if y.Binary? {
          EqIsIdentity(l, y.left, leaf);
          EqIsIdentity(r, y.right, leaf);
        }
      case Sequence(h, t) =>
        if y.Sequence? {
          EqIsIdentity(h, y.head, leaf);
          EqIsIdentity(t, y.tail, leaf);
        }
      case Leaf(_) =>
    }
  }

  /** If no leaf is strictly below (above) itself, no tree is. */
  lemma {:induction false} StrictIrreflexive(c: Comparison, x: Expression, leaf: LeafComparator)
    requires c == Lt || c == Gt
    requires LeafStrictIrreflexive(leaf, c)
    ensures !Compare(c, x, x, leaf)
  {
    match x
    case Binary(l, _, _) =>
      StrictIrreflexive(c, l, leaf);
    case Sequence(h, _) =>
      StrictIrreflexive(c, h, leaf);
    case Leaf(_) =>
  }

  /**
   * If a strict comparison implies the weak one on leaves (< implies <=,
   * > implies >=), it does so on trees.
   */
  lemma {:induction false} StrictImpliesWeak(strict: Comparison, weak: Comparison,
                                             x: Expression, y: Expression, leaf: LeafComparator)
    requires (strict, weak) == (Lt, Le) || (strict, weak) == (Gt, Ge)
    requires LeafStrictImpliesWeak(leaf, strict, weak)
    ensures Compare(strict, x, y, leaf) ==> Compare(weak, x, y, leaf)
  {
    match x
    case Binary(l, _, r) =>
      if y.Binary? {
        StrictImpliesWeak(strict, weak, l, y.left, leaf);
        StrictImpliesWeak(strict, weak, r, y.right, leaf);
      }
    case Sequence(h, t) =>
      if y.Sequence? {
        StrictImpliesWeak(strict, weak, h, y.head, leaf);
        StrictImpliesWeak(strict, weak, t, y.tail, leaf);
      }
    case Leaf(_) =>
  }
}
