/** How problems are named: correlation keys, de-dup hashes and per-target delivery keys. */
module Identity {
  import opened Events

  function ActionText(a: Action): string {
    match a
    case Raise => "raise"
    case Clear => "clear"
  }

  function SeverityText(s: Severity): string {
    match s
    case Normal => "normal"
    case Warning => "warning"
    case Minor => "minor"
    case Major => "major"
    case Critical => "critical"
  }

  function ServerKey(base: string, condition: string): string {
    "server:" + base + ":" + condition
  }

  function AlertKey(id: string): string {
    "alert:" + id
  }

  function GenericKey(id: string): string {
    "generic:" + id
  }

  /** What is hashed for a server or alert event. */
  function Preimage(correlationKey: string, action: Action, severity: Severity): string {
    correlationKey + "|" + ActionText(action) + "|" + SeverityText(severity)
  }

  /** What is hashed for an event of any other type. */
  function GenericPreimage(id: string, operation: string): string {
    GenericKey(id) + "|" + operation
  }

  /** SHA-1 in hexadecimal, taken to be collision-free. */
  ghost predicate IsHash(hash: string -> string) {
    && (forall x, y :: hash(x) == hash(y) ==> x == y)
    && (forall x :: ':' !in hash(x))
  }

  /** Text after the last separator, and so the text before it, can be read off the joined text. */
  lemma LastSplit(a: string, c: string, a': string, c': string, sep: char)
    requires sep !in c && sep !in c' && a + [sep] + c == a' + [sep] + c'
    ensures a == a' && c == c'
  {
    var whole := a + [sep] + c;
    assert whole[|a|] == sep && whole[|a'|] == sep;
    assert forall i :: |a| < i < |whole| ==> whole[i] == c[i - |a| - 1];
    assert forall i :: |a'| < i < |whole| ==> whole[i] == c'[i - |a'| - 1];
    assert |a| == |a'|;
    assert whole[..|a|] == a && whole[|a| + 1..] == c;
    assert (a' + [sep] + c')[..|a'|] == a' && (a' + [sep] + c')[|a'| + 1..] == c';
  }

  /** Likewise for the text before the first separator. */
  lemma FirstSplit(a: string, c: string, a': string, c': string, sep: char)
    requires sep !in a && sep !in a' && a + [sep] + c == a' + [sep] + c'
    ensures a == a' && c == c'
  {
    var whole := a + [sep] + c;
    assert whole[|a|] == sep && whole[|a'|] == sep;
    assert forall i :: 0 <= i < |a| ==> whole[i] == a[i];
    assert forall i :: 0 <= i < |a'| ==> whole[i] == a'[i];
    assert |a| == |a'|;
    assert whole[..|a|] == a && whole[|a| + 1..] == c;
    assert (a' + [sep] + c')[..|a'|] == a' && (a' + [sep] + c')[|a'| + 1..] == c';
  }

  /** A server key names one server and one condition, even when serials contain ':'. */
  lemma ServerKeyInjective(base: string, cond: string, base': string, cond': string)
    requires ':' !in cond && ':' !in cond'
    ensures ServerKey(base, cond) == ServerKey(base', cond') <==> base == base' && cond == cond'
  {
    if ServerKey(base, cond) == ServerKey(base', cond') {
      LastSplit("server:" + base, cond, "server:" + base', cond', ':');
      assert ("server:" + base)[7..] == base && ("server:" + base')[7..] == base';
    }
  }

  lemma KeyFamiliesAreDisjoint(base: string, cond: string, id: string, id': string)
    ensures ServerKey(base, cond) != AlertKey(id)
    ensures ServerKey(base, cond) != GenericKey(id)
    ensures AlertKey(id) != GenericKey(id')
  {
    assert ServerKey(base, cond)[0] == 's' && AlertKey(id)[0] == 'a' && GenericKey(id)[0] == 'g';
    assert GenericKey(id')[0] == 'g';
  }

  lemma TextsAreDistinct(a: Action, a': Action, s: Severity, s': Severity)
    ensures ActionText(a) == ActionText(a') <==> a == a'
    ensures SeverityText(s) == SeverityText(s') <==> s == s'
    ensures '|' !in ActionText(a) && '|' !in SeverityText(s)
  {
    assert "raise"[0] == 'r' && "clear"[0] == 'c';
    assert SeverityText(Normal)[0] == 'n' && SeverityText(Warning)[0] == 'w' && SeverityText(Critical)[0] == 'c';
    assert SeverityText(Minor)[1] == 'i' && SeverityText(Major)[1] == 'a';
  }

  /** The joined text determines correlation key, action and severity, whatever the correlation key contains. */
  lemma PreimageInjective(k: string, a: Action, s: Severity, k': string, a': Action, s': Severity)
    ensures Preimage(k, a, s) == Preimage(k', a', s') <==> k == k' && a == a' && s == s'
  {
    TextsAreDistinct(a, a', s, s');
    TextsAreDistinct(a', a, s', s);
    if Preimage(k, a, s) == Preimage(k', a', s') {
      LastSplit(k + "|" + ActionText(a), SeverityText(s), k' + "|" + ActionText(a'), SeverityText(s'), '|');
      LastSplit(k, ActionText(a), k', ActionText(a'), '|');
    }
  }

  /** A raise and its clear share the correlation key but never the de-dup key. */
  lemma DedupKeyIdentifies(
      hash: string -> string, k: string, a: Action, s: Severity, k': string, a': Action, s': Severity)
    requires IsHash(hash)
    ensures hash(Preimage(k, a, s)) == hash(Preimage(k', a', s')) <==> k == k' && a == a' && s == s'
  {
    PreimageInjective(k, a, s, k', a', s');
  }

  /** The delivery key of an event for a target determines both. */
  lemma DeliveryKeyInjective(e: Event, adapter: string, e': Event, adapter': string)
    requires ':' !in e.dedupKey && ':' !in e'.dedupKey
    ensures DeliveryKey(e, adapter) == DeliveryKey(e', adapter') <==> e.dedupKey == e'.dedupKey && adapter == adapter'
  {
    if DeliveryKey(e, adapter) == DeliveryKey(e', adapter') {
      FirstSplit(e.dedupKey, adapter, e'.dedupKey, adapter', ':');
    }
  }

  // --- Generic events: where the join is ambiguous ------------------------------------

  ghost predicate Confusable(id: string, op: string) {
    exists id': string, op': string :: (id' != id || op' != op) && GenericPreimage(id', op') == GenericPreimage(id, op)
  }

  /**
   * For any other resource type the id and the operation are joined with the same separator unescaped, so
   * two different events can hash alike. That happens to an event if and only if its id or its operation
   * contains the separator.
   */
  lemma GenericConfusion(id: string, op: string)
    ensures Confusable(id, op) <==> '|' in id || '|' in op
  {
    if '|' in op {
      var j :| 0 <= j < |op| && op[j] == '|';
      var id', op' := id + "|" + op[..j], op[j + 1..];
      assert op == op[..j] + "|" + op[j + 1..];
      assert GenericPreimage(id', op') == GenericPreimage(id, op);
    } else if '|' in id {
      var j :| 0 <= j < |id| && id[j] == '|';
      var id', op' := id[..j], id[j + 1..] + "|" + op;
      assert id == id[..j] + "|" + id[j + 1..];
      assert GenericPreimage(id', op') == GenericPreimage(id, op);
    } else {
      forall id': string, op': string | GenericPreimage(id', op') == GenericPreimage(id, op)
        ensures id' == id && op' == op
      {
        UnconfusedSplit(id, op, id', op');
      }
    }
  }

  lemma UnconfusedSplit(id: string, op: string, id': string, op': string)
    requires '|' !in id && '|' !in op && GenericPreimage(id', op') == GenericPreimage(id, op)
    ensures id' == id && op' == op
  {
    var whole := GenericPreimage(id, op);
    var n, n' := |GenericKey(id)|, |GenericKey(id')|;
    assert whole[n'] == GenericPreimage(id', op')[n'] == '|';
    assert forall i :: 8 <= i < |whole| && i != n ==> whole[i] == if i < n then id[i - 8] else op[i - n - 1];
    assert n' == n;
    assert whole[..n] == GenericKey(id) && whole[n + 1..] == op;
    assert GenericPreimage(id', op')[..n] == GenericKey(id') && GenericPreimage(id', op')[n + 1..] == op';
    assert GenericKey(id)[8..] == id && GenericKey(id')[8..] == id';
  }

  /** Two different generic events with one de-dup key. */
  lemma GenericConfusionExample()
    ensures GenericPreimage("x|y", "z") == GenericPreimage("x", "y|z")
  {
    assert "generic:x|y|z" == GenericPreimage("x|y", "z");
    assert "generic:x|y|z" == GenericPreimage("x", "y|z");
  }
}
