/**
 Refresh tokens: each use revokes the token and issues one successor. Calls are serialised and
 generated tokens are fresh; first tokens are issued at login, which the program leaves to others.
 */
module Tokens {
  import opened Wrappers

  type Token = nat
  datatype Row = Row(revoked: bool, user: nat)
  type Table = map<Token, Row>

  datatype Event =
    | Issued(token: Token, user: nat)
    | Rotated(used: Token, generated: Token)      // a call of the rotation, successful or not

  /** Good for one rotation. */
  predicate Live(rows: Table, t: Token) {
    t in rows && !rows[t].revoked
  }

  function Rotate(rows: Table, t: Token, generated: Token): Table {
    if !Live(rows, t) then rows
    else rows[t := rows[t].(revoked := true)][generated := Row(false, rows[t].user)]
  }

  predicate Enabled(rows: Table, e: Event) {
    match e
    case Issued(t, _) => t !in rows
    case Rotated(_, generated) => generated !in rows
  }

  function Next(rows: Table, e: Event): Table {
    match e
    case Issued(t, user) => rows[t := Row(false, user)]
    case Rotated(t, generated) => Rotate(rows, t, generated)
  }

  function Exec(rows: Table, es: seq<Event>): Option<Table> {
    if es == [] then Some(rows)
    else
      match Exec(rows, es[..|es| - 1])
      case None => None
      case Some(rows') => if Enabled(rows', es[|es| - 1]) then Some(Next(rows', es[|es| - 1])) else None
  }

  function Run(es: seq<Event>): Option<Table> {
    Exec(map[], es)
  }

  // ----- chains, read off the events alone

  /** The token and its successors so far; empty before it is issued. Only a use of the end adds one. */
  function Chain(es: seq<Event>, t: Token): seq<Token>
    decreases |es|, 0
  {
    if es == [] then []
    else
      var p := es[..|es| - 1];
      var before := Chain(p, t);
      match es[|es| - 1]
      case Issued(x, _) => if before == [] && x == t then [t] else before
      case Rotated(x, generated) =>
        if before == [] then if generated == t && IsTip(p, x) then [t] else []
        else if x == before[|before| - 1] then before + [generated] else before
  }

  predicate IsTip(es: seq<Event>, t: Token)
    decreases |es|, 1
  {
    var chain := Chain(es, t);
    chain != [] && chain[|chain| - 1] == t
  }

  /** Simple, owned by one user, and live exactly at its end. */
  ghost predicate GoodChain(rows: Table, chain: seq<Token>) {
    && (forall i | 0 <= i < |chain| :: chain[i] in rows)
    && (forall i | 0 <= i < |chain| :: rows[chain[i]].user == rows[chain[0]].user)
    && (forall i, j | 0 <= i < j < |chain| :: chain[i] != chain[j])
    && (forall i | 0 <= i < |chain| :: rows[chain[i]].revoked <==> i < |chain| - 1)
  }

  ghost predicate Heads(rows: Table, chain: seq<Token>, t: Token) {
    && (chain != [] <==> t in rows)
    && (chain != [] ==> chain[0] == t)
    && GoodChain(rows, chain)
  }

  lemma TipIsLive(rows: Table, chain: seq<Token>, t: Token)
    requires Heads(rows, chain, t)
    ensures Live(rows, t) <==> chain != [] && chain[|chain| - 1] == t
  {
  }

  lemma ExtendsWith(rows: Table, chain: seq<Token>, x: Token, generated: Token)
    requires GoodChain(rows, chain) && generated !in rows
    ensures GoodChain(Rotate(rows, x, generated),
                      if chain != [] && x == chain[|chain| - 1] then chain + [generated] else chain)
  {
  }

  /**
   In any run, every issued token heads a simple chain that belongs to one user and has exactly one
   live token, its end; tokens that were never issued head nothing.
   */
  lemma {:induction false} EveryTokenHeadsChain(es: seq<Event>, t: Token)
    requires Run(es).Some?
    ensures Heads(Run(es).value, Chain(es, t), t)
  {
    if es != [] {
      var p, e := es[..|es| - 1], es[|es| - 1];
      var rows := Run(p).value;
      EveryTokenHeadsChain(p, t);
      if e.Rotated? {
        EveryTokenHeadsChain(p, e.used);
        TipIsLive(rows, Chain(p, e.used), e.used);
        ExtendsWith(rows, Chain(p, t), e.used, e.generated);
      }
    }
  }

  /** A rotation succeeds iff it is given a token that is the end of its chain. */
  lemma SucceedsIffTip(es: seq<Event>, t: Token, generated: Token)
    requires Run(es).Some? && generated !in Run(es).value
    ensures Rotate(Run(es).value, t, generated) != Run(es).value <==> IsTip(es, t)
  {
    EveryTokenHeadsChain(es, t);
    TipIsLive(Run(es).value, Chain(es, t), t);
    if Live(Run(es).value, t) {
      assert generated in Rotate(Run(es).value, t, generated);
    }
  }

  /** A revoked token stays revoked, whatever follows; so does the user of any token. */
  lemma {:induction false} RevokedForever(rows: Table, es: seq<Event>, t: Token)
    requires Exec(rows, es).Some? && t in rows
    ensures t in Exec(rows, es).value && Exec(rows, es).value[t].user == rows[t].user
    ensures rows[t].revoked ==> Exec(rows, es).value[t].revoked
  {
    if es != [] {
      RevokedForever(rows, es[..|es| - 1], t);
    }
  }

  function LiveOf(rows: Table, user: nat): set<Token> {
    set t | t in rows && !rows[t].revoked && rows[t].user == user
  }

  function Logins(es: seq<Event>, user: nat): nat {
    if es == [] then 0
    else
      var e := es[|es| - 1];
      Logins(es[..|es| - 1], user) + if e.Issued? && e.user == user then 1 else 0
  }

  lemma LiveAfterRotation(rows: Table, t: Token, generated: Token, user: nat)
    requires generated !in rows
    ensures |LiveOf(Rotate(rows, t, generated), user)| == |LiveOf(rows, user)|
  {
    if Live(rows, t) && rows[t].user == user {
      assert LiveOf(Rotate(rows, t, generated), user) == LiveOf(rows, user) - {t} + {generated};
      assert t in LiveOf(rows, user) && generated !in LiveOf(rows, user);
    } else {
      assert LiveOf(Rotate(rows, t, generated), user) == LiveOf(rows, user);
    }
  }

  lemma LiveAfterLogin(rows: Table, t: Token, owner: nat, user: nat)
    requires t !in rows
    ensures |LiveOf(rows[t := Row(false, owner)], user)| == |LiveOf(rows, user)| + if owner == user then 1 else 0
  {
    assert LiveOf(rows[t := Row(false, owner)], user) == LiveOf(rows, user) + if owner == user then {t} else {};
  }

  /** Rotations neither make nor lose live tokens: a user has as many as there were logins. */
  lemma {:induction false} LiveTokensConserved(es: seq<Event>, user: nat)
    requires Run(es).Some?
    ensures |LiveOf(Run(es).value, user)| == Logins(es, user)
  {
    if es == [] {
      assert LiveOf(map[], user) == {};
    } else {
      var p := es[..|es| - 1];
      LiveTokensConserved(p, user);
      match es[|es| - 1]
      case Issued(t, owner) => LiveAfterLogin(Run(p).value, t, owner, user);
      case Rotated(t, generated) => LiveAfterRotation(Run(p).value, t, generated, user);
    }
  }

  // ----- the store

  datatype Answer = Token(token: Token) | Unauthorized

  class TokenStore {
    var rows: Table

    constructor ()
      ensures rows == map[]
    {
      rows := map[];
    }

    /** Rejects an unknown or revoked token, changing nothing; otherwise revokes it and adds its successor. */
    method RotateRefreshToken(used: Token, generated: Token) returns (answer: Answer)
      requires generated !in rows
      modifies this
      ensures rows == Rotate(old(rows), used, generated)
      ensures answer == if Live(old(rows), used) then Answer.Token(generated) else Unauthorized
      ensures answer.Token? ==>
                Live(rows, generated) && !Live(rows, used) && rows[generated].user == old(rows)[used].user
    {
      if used !in rows || rows[used].revoked {
        return Unauthorized;
      }
      var row := rows[used];
      rows := rows[used := row.(revoked := true)];
      rows := rows[generated := Row(false, row.user)];
      answer := Answer.Token(generated);
    }
  }
}
