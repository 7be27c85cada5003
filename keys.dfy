/** The keys the library recognises (`MyKeys`) and the mapping from the host
    toolkit's logical key values onto them. */
module Keys {

  /** The named keys of the host toolkit that the library looks at; every
      other named key is `OtherNamed`. */
  datatype NamedKey =
    | ArrowLeft | ArrowRight | ArrowUp | ArrowDown
    | Escape | Space
    | OtherNamed(code: nat)

  /** A logical key value as the host delivers it: a named key, the text a
      character key produces, or a key the host could not identify. */
  datatype Key = Named(name: NamedKey) | Character(text: string) | Unidentified

  /** The recognised keys: six letters of an AZERTY layout and the arrows. */
  datatype MyKey = KeyA | KeyZ | KeyE | KeyQ | KeyS | KeyD | Up | Down | Left | Right

  /** `Result<MyKeys, ()>`: the conversion fails without a payload. */
  datatype Result<T> = Ok(value: T) | Err

  /** The one host key that denotes each recognised key. */
  function KeyFor(k: MyKey): Key
  {
    match k
    case Left => Named(ArrowLeft)
    case Right => Named(ArrowRight)
    case Up => Named(ArrowUp)
    case Down => Named(ArrowDown)
    case KeyQ => Character("q")
    case KeyD => Character("d")
    case KeyZ => Character("z")
    case KeyS => Character("s")
    case KeyA => Character("a")
    case KeyE => Character("e")
  }

  /** `TryFrom<&Key> for MyKeys`: the four arrows and the lower-case letters
      q, d, z, s, a, e are recognised; everything else, Escape and Space
      included, is refused. */
  function TryFromKey(key: Key): (r: Result<MyKey>)
    ensures r.Ok? ==> key == KeyFor(r.value)
    ensures forall k :: key == KeyFor(k) ==> r == Ok(k)
    ensures key == Named(Escape) || key == Named(Space) || key == Unidentified ==> r == Err
  {
    match key
    case Named(ArrowLeft) => Ok(Left)
    case Named(ArrowRight) => Ok(Right)
    case Named(ArrowUp) => Ok(Up)
    case Named(ArrowDown) => Ok(Down)
    case Character(name) =>
      if name == "q" then Ok(KeyQ)
      else if name == "d" then Ok(KeyD)
      else if name == "z" then Ok(KeyZ)
      else if name == "s" then Ok(KeyS)
      else if name == "a" then Ok(KeyA)
      else if name == "e" then Ok(KeyE)
      else Err
    case _ => Err
  }

  /** Distinct recognised keys come from distinct host keys, so the mapping
      loses nothing. */
  lemma KeyForInjective(k1: MyKey, k2: MyKey)
    requires KeyFor(k1) == KeyFor(k2)
    ensures k1 == k2
  {
  }
}
