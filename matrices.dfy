/**
 * Symbolic 4x4 transform matrices, as the updater builds them from engine values.
 *
 * No arithmetic is done on matrix entries. A matrix expression is given a meaning
 * as a word over invertible generators (a free group): each atom (a rotation,
 * a scale, a translation, a world-to-local matrix read from a transform) is one
 * letter, `inverse` reverses a word and flips its letters, and a product
 * concatenates two words while cancelling adjacent inverse pairs. Two expressions
 * with the same word are equal as real matrices whenever every atom is invertible,
 * so identities such as "derived * S * R == I" can be stated and proved here.
 */
module Matrices {

  /** The identity of a scene transform (a GameObject's Transform). */
  type TransformId = nat

  /** A 3-vector read from a transform, kept symbolic. */
  datatype Vector =
    | LossyScale(t: TransformId)   // t.lossyScale
    | Position(t: TransformId)     // t.position
    | Negated(v: Vector)           // -v

  /** A matrix expression with the operators the updater uses. */
  datatype Matrix =
    | Identity                      // Matrix4x4.identity
    | Rotate(t: TransformId)        // Matrix4x4.Rotate(t.rotation)
    | Scale(v: Vector)              // Matrix4x4.Scale(v)
    | Translate(v: Vector)          // Matrix4x4.Translate(v)
    | WorldToLocal(t: TransformId)  // t.worldToLocalMatrix
    | Inverse(m: Matrix)            // m.inverse
    | Product(left: Matrix, right: Matrix)   // left * right

  /** The generators of the free group that gives matrices their meaning. */
  datatype Atom =
    | RotationOf(t: TransformId)
    | ScalingBy(v: Vector)
    | TranslationBy(v: Vector)
    | WorldToLocalOf(t: TransformId)

  /** A generator or its inverse. */
  datatype Letter = Letter(atom: Atom, inverted: bool)

  type Word = seq<Letter>

  function Flip(x: Letter): Letter
  {
    Letter(x.atom, !x.inverted)
  }

  /** Multiply a word by one letter on the right, cancelling it against the last letter if they are inverse. */
  function Push(w: Word, x: Letter): Word
  {
    if |w| > 0 && w[|w| - 1] == Flip(x) then w[..|w| - 1] else w + [x]
  }

  /** Multiply a word by a word on the right, one letter at a time. */
  function PushAll(w: Word, s: Word): Word
    decreases |s|
  {
    if s == [] then w else PushAll(Push(w, s[0]), s[1..])
  }

  /** The inverse of a word: its letters reversed and flipped. */
  function InverseWord(w: Word): (r: Word)
    ensures |r| == |w|
  {
    if w == [] then [] else [Flip(w[|w| - 1])] + InverseWord(w[..|w| - 1])
  }

  /** A translation by -v is the inverse of the translation by v: strip the negations and count them. */
  function StripNegation(v: Vector): (Vector, bool)
  {
    match v
    case Negated(u) => var (b, neg) := StripNegation(u); (b, !neg)
    case _ => (v, false)
  }

  /** The meaning of a matrix expression. */
  function Eval(m: Matrix): Word
  {
    match m
    case Identity => []
    case Rotate(t) => [Letter(RotationOf(t), false)]
    case Scale(v) => [Letter(ScalingBy(v), false)]
    case Translate(v) => var (b, neg) := StripNegation(v); [Letter(TranslationBy(b), neg)]
    case WorldToLocal(t) => [Letter(WorldToLocalOf(t), false)]
    case Inverse(a) => InverseWord(Eval(a))
    case Product(a, b) => PushAll(Eval(a), Eval(b))
  }

  /** Multiplying by a one-letter word is pushing that letter. */
  lemma PushAllOne(w: Word, x: Letter)
    ensures PushAll(w, [x]) == Push(w, x)
  {
    assert [x][1..] == [];
  }

  /** The meaning of a product of two matrices whose words are single letters. */
  lemma EvalProductOfLetters(a: Matrix, b: Matrix, x: Letter, y: Letter)
    requires Eval(a) == [x] && Eval(b) == [y]
    ensures Eval(Product(a, b)) == Push([x], y)
  {
    PushAllOne([x], y);
  }

  /** Two expressions denote the same matrix. */
  predicate Equivalent(a: Matrix, b: Matrix)
  {
    Eval(a) == Eval(b)
  }

  /** The inverse word reads the original backwards, flipped. */
  lemma {:induction false} InverseWordAt(w: Word, k: nat)
    requires k < |w|
    ensures InverseWord(w)[k] == Flip(w[|w| - 1 - k])
  {
    if k > 0 {
      InverseWordAt(w[..|w| - 1], k - 1);
    }
  }

  lemma InverseWordInvolutive(w: Word)
    ensures InverseWord(InverseWord(w)) == w
  {
    var r := InverseWord(InverseWord(w));
    forall k | 0 <= k < |w|
      ensures r[k] == w[k]
    {
      InverseWordAt(InverseWord(w), k);
      InverseWordAt(w, |w| - 1 - k);
    }
  }

  /** Multiplying u * w by the inverse of w gives back u, whatever u and w are. */
  lemma {:induction false} PushAllCancels(u: Word, w: Word)
    ensures PushAll(u + w, InverseWord(w)) == u
    decreases |w|
  {
    if w == [] {
      assert u + w == u;
    } else {
      var x := w[|w| - 1];
      var rest := w[..|w| - 1];
      var inv := InverseWord(w);
      assert inv == [Flip(x)] + InverseWord(rest);
      assert inv[0] == Flip(x) && inv[1..] == InverseWord(rest);
      assert (u + w)[|u + w| - 1] == x;
      assert (u + w)[..|u + w| - 1] == u + rest;
      assert Push(u + w, Flip(x)) == u + rest;
      PushAllCancels(u, rest);
    }
  }

  /** m * m.inverse and m.inverse * m both denote the identity. */
  lemma ProductWithInverseIsIdentity(m: Matrix)
    ensures Equivalent(Product(m, Inverse(m)), Identity)
    ensures Equivalent(Product(Inverse(m), m), Identity)
  {
    var w := Eval(m);
    PushAllCancels([], w);
    assert [] + w == w;
    PushAllCancels([], InverseWord(w));
    assert [] + InverseWord(w) == InverseWord(w);
    InverseWordInvolutive(w);
  }

  /** Translating by -v after translating by v is the identity. */
  lemma TranslateByNegationCancels(v: Vector)
    ensures Equivalent(Product(Translate(v), Translate(Negated(v))), Identity)
  {
    var (b, neg) := StripNegation(v);
    var x := Letter(TranslationBy(b), neg);
    assert Eval(Translate(v)) == [x];
    assert Eval(Translate(Negated(v))) == [Flip(x)];
    assert Push([x], Flip(x)) == [];
    assert PushAll([x], [Flip(x)]) == PushAll([], []);
  }
}
