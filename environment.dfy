/**
 * The variable store (Environment.js): one flat map from names to values.
 *
 * The source's constructor takes no enclosing environment (callers pass one
 * and it is ignored), so there is no chain of frames: every new environment
 * starts empty and a lookup sees only its own bindings.
 */
module Environments {
  import opened Tokens

  /** The outcome of a lookup or an assignment: a value, or the runtime error the source throws. */
  datatype Result<V> = Ok(value: V) | Err(token: Token, message: string)

  /** The message for a name with no binding. */
  function UndefinedMessage(name: string): (m: string)
    ensures m == "Undefined variable '" + name + "'."
  {
    "Undefined variable '" + name + "'."
  }

  /** What `get` yields on the bindings `values`. */
  function Lookup<V>(values: map<string, V>, name: Token): (r: Result<V>)
    ensures r.Ok? <==> name.lexeme in values
    ensures r.Ok? ==> r.value == values[name.lexeme]
    ensures r.Err? ==> r.token == name && r.message == UndefinedMessage(name.lexeme)
  {
    if name.lexeme in values then Ok(values[name.lexeme]) else Err(name, UndefinedMessage(name.lexeme))
  }

  class Environment<V> {
    var values: map<string, V>

    /** A new environment has no bindings. */
    constructor()
      ensures values == map[]
    {
      values := map[];
    }

    /** Inserts or overwrites the binding for `name`; every other binding is unchanged. */
    method Define(name: string, value: V)
      modifies this
      ensures values == old(values)[name := value]
    {
      values := values[name := value];
    }

    /** The value bound to the token's lexeme, or the "Undefined variable" error. */
    method Get(name: Token) returns (r: Result<V>)
      ensures r == Lookup(values, name)
    {
      if name.lexeme in values {
        return Ok(values[name.lexeme]);
      }
      return Err(name, UndefinedMessage(name.lexeme));
    }

    /**
     * Replaces the binding of a name that is present; for an absent name,
     * the "Undefined variable" error and no new binding.
     */
    method Assign(name: Token, value: V) returns (r: Result<()>)
      modifies this
      ensures name.lexeme in old(values) ==> r == Ok(()) && values == old(values)[name.lexeme := value]
      ensures name.lexeme !in old(values) ==> r == Err(name, UndefinedMessage(name.lexeme)) && values == old(values)
    {
      if name.lexeme in values {
        values := values[name.lexeme := value];
        return Ok(());
      }
      return Err(name, UndefinedMessage(name.lexeme));
    }
  }

  /** After a define of the token's lexeme, a get of that token finds the value. */
  lemma GetAfterDefine<V>(values: map<string, V>, name: Token, value: V)
    ensures Lookup(values[name.lexeme := value], name) == Ok(value)
  {
  }

  /** A define of one name leaves the lookup of every other name as it was. */
  lemma DefineLeavesOthers<V>(values: map<string, V>, defined: string, value: V, other: Token)
    requires other.lexeme != defined
    ensures Lookup(values[defined := value], other) == Lookup(values, other)
  {
  }

  /** An assign to a present name is a define that adds no name. */
  lemma AssignPresentKeepsNames<V>(values: map<string, V>, name: Token, value: V)
    requires name.lexeme in values
    ensures values[name.lexeme := value].Keys == values.Keys
  {
  }
}
