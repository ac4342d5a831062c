// Nested fields of an SMS provider's request and response, addressed by dotted paths (sms-gateway.service.ts).
module SmsPaths {
  import opened Common

  datatype Value = Scalar(text: string) | List(items: seq<Value>) | Object(fields: map<string, Value>)

  function Child(fields: map<string, Value>, part: string): map<string, Value> {
    if part in fields && fields[part].Object? then fields[part].fields else map[]
  }

  // The tree after setPath: whatever stands in the way of the path gives place to an empty object.
  function Set(fields: map<string, Value>, parts: seq<string>, value: Value): map<string, Value>
    requires |parts| > 0
    decreases |parts|
  {
    if |parts| == 1 then fields[parts[0] := value]
    else fields[parts[0] := Object(Set(Child(fields, parts[0]), parts[1..], value))]
  }

  // getPath, None for undefined.
  function Get(current: Option<Value>, parts: seq<string>): Option<Value>
    decreases |parts|
  {
    if parts == [] then current
    else if current.Some? && current.value.Object? && parts[0] in current.value.fields
    then Get(Some(current.value.fields[parts[0]]), parts[1..])
    else None
  }

  function Read(fields: map<string, Value>, parts: seq<string>): Option<Value> { Get(Some(Object(fields)), parts) }

  predicate Unrelated(p: seq<string>, q: seq<string>) { !(p <= q) && !(q <= p) }

  lemma {:induction false} NothingThere(current: Option<Value>, parts: seq<string>)
    requires current.None? || !current.value.Object?
    ensures parts != [] ==> Get(current, parts) == None
  {
  }

  // Reading back what was set; a longer path reads into the value.
  lemma {:induction false} ReadSet(fields: map<string, Value>, p: seq<string>, value: Value, rest: seq<string>)
    requires |p| > 0
    ensures Read(Set(fields, p, value), p + rest) == Get(Some(value), rest)
    decreases |p|
  {
    assert (p + rest)[0] == p[0] && (p + rest)[1..] == p[1..] + rest;
    if |p| == 1 {
      assert p[1..] + rest == rest;
    } else {
      ReadSet(Child(fields, p[0]), p[1..], value, rest);
    }
  }

  // A shorter path then reads an object.
  lemma {:induction false} ReadAbove(fields: map<string, Value>, p: seq<string>, value: Value, q: seq<string>)
    requires |q| > 0 && q < p
    ensures Read(Set(fields, p, value), q).Some? && Read(Set(fields, p, value), q).value.Object?
    decreases |p|
  {
    assert q[0] == p[0] && q[1..] <= p[1..];
    var t := Set(fields, p, value);
    assert |p| > 1 && t[q[0]].Object? && Read(t, q) == Get(Some(t[q[0]]), q[1..]);
    if |q| == 1 {
      assert q[1..] == [];
    } else {
      ReadAbove(Child(fields, p[0]), p[1..], value, q[1..]);
    }
  }

  // Any unrelated path reads what it did before.
  lemma {:induction false} ReadUnrelated(fields: map<string, Value>, p: seq<string>, value: Value, q: seq<string>)
    requires |p| > 0 && |q| > 0 && Unrelated(p, q)
    ensures Read(Set(fields, p, value), q) == Read(fields, q)
    decreases |p|
  {
    if p[0] == q[0] {
      assert p == [p[0]] + p[1..] && q == [q[0]] + q[1..];
      assert |p| > 1 && |q| > 1 && Unrelated(p[1..], q[1..]);
      ReadUnrelated(Child(fields, p[0]), p[1..], value, q[1..]);
      if p[0] !in fields || !fields[p[0]].Object? {
        NothingThere(if p[0] in fields then Some(fields[p[0]]) else None, q[1..]);
      }
    }
  }

  // ---- The request body of a custom provider ----

  // send sets the recipient, the message and the sender, in this order.
  function Body(recipient: seq<string>, message: seq<string>, sender: seq<string>, to: string,
                text: string, from: string)
    : map<string, Value>
    requires |recipient| > 0 && |message| > 0 && |sender| > 0
  {
    Set(Set(Set(map[], recipient, Scalar(to)), message, Scalar(text)), sender, Scalar(from))
  }

  ghost predicate Carries(recipient: seq<string>, message: seq<string>, sender: seq<string>, to: string, text: string,
                          from: string)
    requires |recipient| > 0 && |message| > 0 && |sender| > 0
  {
    var body := Body(recipient, message, sender, to, text, from);
    && Read(body, recipient) == Some(Scalar(to))
    && Read(body, message) == Some(Scalar(text))
    && Read(body, sender) == Some(Scalar(from))
  }

  // A later set takes a related earlier field away, unless it writes the same text to the same path.
  lemma Clobbers(fields: map<string, Value>, p: seq<string>, q: seq<string>, x: string, y: string)
    requires |p| > 0 && |q| > 0 && !Unrelated(p, q) && x != y
    ensures Read(Set(fields, q, Scalar(y)), p) != Some(Scalar(x))
  {
    if q <= p {
      assert p == q + p[|q|..];
      ReadSet(fields, q, Scalar(y), p[|q|..]);
    } else {
      ReadAbove(fields, q, Scalar(y), p);
    }
  }

  lemma UnrelatedCarries(recipient: seq<string>, message: seq<string>, sender: seq<string>, to: string, text: string,
                         from: string)
    requires |recipient| > 0 && |message| > 0 && |sender| > 0
    requires Unrelated(recipient, message) && Unrelated(recipient, sender) && Unrelated(message, sender)
    ensures Carries(recipient, message, sender, to, text, from)
  {
    var one := Set(map[], recipient, Scalar(to));
    var two := Set(one, message, Scalar(text));
    ReadSet(map[], recipient, Scalar(to), []);
    ReadSet(one, message, Scalar(text), []);
    ReadSet(two, sender, Scalar(from), []);
    assert recipient + [] == recipient && message + [] == message && sender + [] == sender;
    ReadUnrelated(one, message, Scalar(text), recipient);
    ReadUnrelated(two, sender, Scalar(from), recipient);
    ReadUnrelated(two, sender, Scalar(from), message);
  }

  lemma RelatedLoses(recipient: seq<string>, message: seq<string>, sender: seq<string>)
    requires |recipient| > 0 && |message| > 0 && |sender| > 0
    requires Carries(recipient, message, sender, "to", "text", "from")
    ensures Unrelated(recipient, message) && Unrelated(recipient, sender) && Unrelated(message, sender)
  {
    var one := Set(map[], recipient, Scalar("to"));
    var two := Set(one, message, Scalar("text"));
    if !Unrelated(recipient, sender) { Clobbers(two, recipient, sender, "to", "from"); }
    if !Unrelated(message, sender) { Clobbers(two, message, sender, "text", "from"); }
    if !Unrelated(recipient, message) {
      Clobbers(one, recipient, message, "to", "text");
      ReadUnrelated(two, sender, Scalar("from"), recipient);
    }
  }

  // Whatever the texts are, the provider reads all three, exactly when no field's path is or extends another's. Saving
  // the settings checks each path on its own.
  lemma BodyCarriesAllIffUnrelated(recipient: seq<string>, message: seq<string>, sender: seq<string>)
    requires |recipient| > 0 && |message| > 0 && |sender| > 0
    ensures (forall to, text, from :: Carries(recipient, message, sender, to, text, from))
       <==> Unrelated(recipient, message) && Unrelated(recipient, sender) && Unrelated(message, sender)
  {
    if Unrelated(recipient, message) && Unrelated(recipient, sender) && Unrelated(message, sender) {
      forall to, text, from ensures Carries(recipient, message, sender, to, text, from) {
        UnrelatedCarries(recipient, message, sender, to, text, from);
      }
    } else if forall to, text, from :: Carries(recipient, message, sender, to, text, from) {
      assert Carries(recipient, message, sender, "to", "text", "from");
      RelatedLoses(recipient, message, sender);
    }
  }
}
