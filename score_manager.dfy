/** The score counter: one integer that collisions and kills push down and
    up, kept by the single live score component of the scene. */
module Score {
  import opened Engine

  const Modulus: int := 0x1_0000_0000
  const MinInt: int := -0x8000_0000
  const MaxInt: int := 0x7fff_ffff

  /** A C# `int`. */
  type Int32 = x: int | -0x8000_0000 <= x <= 0x7fff_ffff

  /** C# `int` arithmetic outside a `checked` context keeps the low 32 bits
      of the exact result: the one 32-bit value congruent to it. */
  function Wrap32(x: int): (r: Int32)
    ensures (r - x) % Modulus == 0
    ensures MinInt <= x <= MaxInt ==> r == x
  {
    (x - MinInt) % Modulus + MinInt
  }

  /** Wrapping forgets whole multiples of 2^32. */
  lemma WrapIgnoresModulus(x: int, y: int)
    requires (x - y) % Modulus == 0
    ensures Wrap32(x) == Wrap32(y)
  {
    var q := (x - y) / Modulus;
    assert x - MinInt == (y - MinInt) + q * Modulus;
    ModuloShift(y - MinInt, q);
  }

  lemma ModuloShift(a: int, q: int)
    ensures (a + q * Modulus) % Modulus == a % Modulus
  {
  }

  /** Adding an amount and then taking the same amount away gives the score
      back, overflow or not. */
  lemma AddThenMinusRestores(score: Int32, amount: Int32)
    ensures Wrap32(Wrap32(score + amount) - amount) == score
  {
    var sum := Wrap32(score + amount);
    assert ((sum - amount) - score) % Modulus == (sum - (score + amount)) % Modulus;
    WrapIgnoresModulus(sum - amount, score);
  }

  /** Without overflow, a change is exact; in particular nothing clamps the
      score at zero. */
  lemma ChangeIsExactInRange(score: Int32, amount: Int32)
    ensures MinInt <= score + amount <= MaxInt ==> Wrap32(score + amount) == score + amount
    ensures MinInt <= score - amount <= MaxInt ==> Wrap32(score - amount) == score - amount
    ensures score < amount && amount >= 0 && score >= 0 ==> Wrap32(score - amount) < 0
  {
  }

  /** The static `Instance` slot, and the components whose game object the
      engine has destroyed. The engine's `==` on components treats a
      destroyed component as null. */
  class Registry {
    var instance: Option<ScoreManager>
    var destroyed: set<ScoreManager>

    constructor ()
      ensures instance == None && destroyed == {}
    {
      instance := None;
      destroyed := {};
    }

    /** No live instance is registered. */
    predicate Vacant()
      reads this
    {
      instance.None? || instance.value in destroyed
    }

    /** The engine destroys a component's game object, for example when it
        loads another scene. */
    method Destroy(m: ScoreManager)
      modifies this`destroyed
      ensures destroyed == old(destroyed) + {m}
    {
      destroyed := destroyed + {m};
    }
  }

  class ScoreManager {
    var score: Int32

    constructor ()
      ensures score == 0
    {
      score := 0;
    }

    /** The simple singleton: the first live component becomes `Instance`;
        one that wakes while another is live destroys its own game object. */
    method Awake(registry: Registry)
      modifies registry
      ensures old(registry.Vacant()) ==> registry.instance == Some(this) && registry.destroyed == old(registry.destroyed)
      ensures !old(registry.Vacant()) ==>
        registry.instance == old(registry.instance) && registry.destroyed == old(registry.destroyed) + {this}
    {
      if registry.Vacant() {
        registry.instance := Some(this);
      } else {
        registry.Destroy(this);
      }
    }

    method AddScore(amount: Int32)
      modifies this`score
      ensures score == Wrap32(old(score) + amount)
    {
      score := Wrap32(score + amount);
    }

    method MinusScore(amount: Int32)
      modifies this`score
      ensures score == Wrap32(old(score) - amount)
    {
      score := Wrap32(score - amount);
    }
  }
}
