/**
 * The HTML bodies of the outgoing mails: JavaScript template literals, i.e.
 * constant text with the form fields substituted in. Substitution is plain
 * string concatenation; nothing is escaped.
 */
module Template {
  import opened JsString

  /** The form fields a template can refer to. */
  datatype Slot = Name | Email | Phone | Topic | Message

  /** The values substituted for the slots. */
  datatype Fields = Fields(name: string, email: string, phone: string, topic: string, message: string)
  {
    function Get(s: Slot): string
    {
      match s
      case Name => name
      case Email => email
      case Phone => phone
      case Topic => topic
      case Message => message
    }
  }

  /** A template literal is a sequence of constant text and `${field}` holes. */
  datatype Piece = Text(text: string) | Hole(slot: Slot)

  function Emit(p: Piece, f: Fields): string
  {
    match p
    case Text(t) => t
    case Hole(s) => f.Get(s)
  }

  /**
   * The string the template literal evaluates to: the pieces one after the
   * other, so that each piece, constant text or field value, occurs in it.
   */
  function Render(t: seq<Piece>, f: Fields): (r: string)
    ensures forall i {:trigger Includes(r, Emit(t[i], f))} :: 0 <= i < |t| ==> Includes(r, Emit(t[i], f))
  {
    if t == [] then ""
    else
      var head := Emit(t[0], f);
      var rest := Render(t[1..], f);
      assert forall i :: 0 <= i < |t| ==> Includes(head + rest, Emit(t[i], f)) by {
        forall i | 0 <= i < |t|
          ensures Includes(head + rest, Emit(t[i], f))
        {
          if i == 0 {
            assert head <= (head + rest)[0..];
          } else {
            assert t[1..][i - 1] == t[i];
            IncludesInside(head, rest, "", Emit(t[i], f));
            assert head + rest + "" == head + rest;
          }
        }
      }
      head + rest
  }

  /** A subject line `${prefix}${topic}`: the fixed prefix, then the topic. */
  function Prefixed(prefix: string, topic: string): (r: string)
    ensures |r| == |prefix| + |topic|
    ensures r[..|prefix|] == prefix
    ensures r[|prefix|..] == topic
  {
    prefix + topic
  }

  /** Behind the same prefix, different topics give different subject lines. */
  lemma PrefixedNamesTopic(prefix: string, t1: string, t2: string)
    requires Prefixed(prefix, t1) == Prefixed(prefix, t2)
    ensures t1 == t2
  {
    assert t1 == Prefixed(prefix, t1)[|prefix|..];
  }

  /** The fields a template substitutes. */
  function Slots(t: seq<Piece>): set<Slot>
  {
    set i | 0 <= i < |t| && t[i].Hole? :: t[i].slot
  }

  /**
   * Every field a template refers to appears in the rendered text exactly as
   * given: markup characters in user input reach the HTML unchanged.
   */
  lemma RenderShowsField(t: seq<Piece>, f: Fields, s: Slot)
    requires s in Slots(t)
    ensures Includes(Render(t, f), f.Get(s))
  {
    var i :| 0 <= i < |t| && t[i].Hole? && t[i].slot == s;
    assert Emit(t[i], f) == f.Get(s);
  }

  /** The rendered text depends on the fields the template refers to and on no others. */
  lemma {:induction false} RenderUsesOnlySlots(t: seq<Piece>, f: Fields, g: Fields)
    requires forall s :: s in Slots(t) ==> f.Get(s) == g.Get(s)
    ensures Render(t, f) == Render(t, g)
  {
    if t != [] {
      forall s | s in Slots(t[1..]) ensures f.Get(s) == g.Get(s) {
        var i :| 0 <= i < |t[1..]| && t[1..][i].Hole? && t[1..][i].slot == s;
        assert t[i + 1] == t[1..][i];
      }
      RenderUsesOnlySlots(t[1..], f, g);
      if t[0].Hole? {
        assert t[0].slot in Slots(t);
      }
    }
  }
}
