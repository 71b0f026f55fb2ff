/**
 * Method descriptors: the string key under which a proxied method is looked
 * up in the async-method set and sent to the Dart side. The grammar is that
 * of field descriptors (section 4.3.2 of the Java Virtual Machine
 * Specification) and method descriptors (section 4.3.3), with the method's
 * name written in front of the parameter list.
 */
module Descriptors {

  /** The Java types a parameter or a return value can have. */
  datatype JType =
    | Void | Boolean | Byte | Char | Short | Int | Long | Float | Double
    | Array(component: JType)
    | Ref(binaryName: string)

  /** A reflected method, as far as its descriptor and `Method.equals` see it. */
  datatype JMethod = JMethod(
    declaringClass: string,
    name: string,
    params: seq<JType>,
    returnType: JType)

  /** A binary name as `Class.getName` returns it for a class or interface
      contains neither ';' nor '/' (package parts are separated by '.'). */
  predicate ValidBinaryName(n: string) {
    forall i :: 0 <= i < |n| ==> n[i] != ';' && n[i] != '/'
  }

  predicate ValidType(t: JType) {
    match t
    case Array(c) => ValidType(c)
    case Ref(n) => ValidBinaryName(n)
    case _ => true
  }

  predicate ValidTypes(ts: seq<JType>) {
    forall i :: 0 <= i < |ts| ==> ValidType(ts[i])
  }

  /** A Java method name is an identifier and so contains no '('. */
  predicate ValidMethodName(n: string) {
    forall i :: 0 <= i < |n| ==> n[i] != '('
  }

  /** The first character of every type encoding. */
  predicate IsTypeTag(c: char) {
    c == 'V' || c == 'Z' || c == 'B' || c == 'C' || c == 'S' || c == 'I' ||
    c == 'J' || c == 'F' || c == 'D' || c == '[' || c == 'L'
  }

  /** `name.replace('.', '/')`: the internal form of a binary name. */
  function InternalName(n: string): string {
    seq(|n|, i requires 0 <= i < |n| => if n[i] == '.' then '/' else n[i])
  }

  /** The field descriptor of `t` (what `appendType` appends). */
  function TypeCode(t: JType): string {
    match t
    case Void => "V"
    case Boolean => "Z"
    case Byte => "B"
    case Char => "C"
    case Short => "S"
    case Int => "I"
    case Long => "J"
    case Float => "F"
    case Double => "D"
    case Array(c) => "[" + TypeCode(c)
    case Ref(n) => "L" + InternalName(n) + ";"
  }

  /** Every encoding is non-empty and starts with one of the eleven tags:
      a primitive's letter, '[' for an array, 'L' for a class. */
  lemma TypeCodeTag(t: JType)
    ensures |TypeCode(t)| > 0 && IsTypeTag(TypeCode(t)[0])
  {
  }

  /** The encodings of `ps`, concatenated in declaration order. */
  function ParamCodes(ps: seq<JType>): string {
    if ps == [] then "" else TypeCode(ps[0]) + ParamCodes(ps[1..])
  }

  /** The descriptor key of a method: name, '(', parameters, ')', return type. */
  function MethodDescriptor(name: string, params: seq<JType>, ret: JType): string {
    name + "(" + Signature(params, ret)
  }

  /** What follows the name and '(' in a descriptor key. */
  function Signature(params: seq<JType>, ret: JType): string {
    ParamCodes(params) + ")" + TypeCode(ret)
  }

  function DescriptorOf(m: JMethod): string {
    MethodDescriptor(m.name, m.params, m.returnType)
  }

  /** Appending one more parameter extends the parameter encoding at its end. */
  lemma {:induction false} ParamCodesSnoc(ps: seq<JType>, t: JType)
    ensures ParamCodes(ps + [t]) == ParamCodes(ps) + TypeCode(t)
  {
    if ps == [] {
      assert ps + [t] == [t];
    } else {
      assert (ps + [t])[1..] == ps[1..] + [t];
      ParamCodesSnoc(ps[1..], t);
    }
  }

  /** The position of the first `c` in `s`, or `|s|` when there is none. */
  function FirstIndex(s: string, c: char): nat {
    if s == [] || s[0] == c then 0 else 1 + FirstIndex(s[1..], c)
  }

  /** A delimiter that does not occur in `p` is first found right after `p`. */
  lemma {:induction false} FirstIndexAfter(p: string, c: char, rest: string)
    requires forall i :: 0 <= i < |p| ==> p[i] != c
    ensures FirstIndex(p + [c] + rest, c) == |p|
  {
    if p != [] {
      assert (p + [c] + rest)[1..] == p[1..] + [c] + rest;
      FirstIndexAfter(p[1..], c, rest);
    }
  }

  /** A parameter encoding followed by ')' starts with ')' exactly when there are no parameters. */
  lemma ParamListEnds(ps: seq<JType>, rest: string)
    ensures (ParamCodes(ps) + ")" + rest)[0] == ')' <==> ps == []
  {
    if ps != [] {
      TypeCodeTag(ps[0]);
      assert ParamCodes(ps) + ")" + rest == TypeCode(ps[0]) + (ParamCodes(ps[1..]) + ")" + rest);
    }
  }

  /** Replacing '.' by '/' loses nothing on a name that has no '/'. */
  lemma InternalNameInjective(a: string, b: string)
    requires ValidBinaryName(a) && ValidBinaryName(b)
    requires InternalName(a) == InternalName(b)
    ensures a == b
  {
    forall i | 0 <= i < |a| ensures a[i] == b[i] {
      assert InternalName(a)[i] == InternalName(b)[i];
    }
  }

  /**
   * The type encoding is prefix-free: an encoding followed by anything can be
   * split back into its type and the rest in one way only.
   */
  lemma {:induction false} TypeCodePrefixFree(t1: JType, t2: JType, rest1: string, rest2: string)
    requires ValidType(t1) && ValidType(t2)
    requires TypeCode(t1) + rest1 == TypeCode(t2) + rest2
    ensures t1 == t2 && rest1 == rest2
  {
    var s := TypeCode(t1) + rest1;
    TypeCodeTag(t1);
    TypeCodeTag(t2);
    assert s[0] == TypeCode(t1)[0] == TypeCode(t2)[0];
    match t1 {
      case Array(c1) =>
        var c2 := t2.component;
        assert TypeCode(c1) + rest1 == s[1..] == TypeCode(c2) + rest2;
        TypeCodePrefixFree(c1, c2, rest1, rest2);
      case Ref(n1) =>
        var n2 := t2.binaryName;
        var i1, i2 := InternalName(n1), InternalName(n2);
        assert s[1..] == i1 + [';'] + rest1 == i2 + [';'] + rest2;
        FirstIndexAfter(i1, ';', rest1);
        FirstIndexAfter(i2, ';', rest2);
        assert i1 == s[1..1 + |i1|] == i2;
        InternalNameInjective(n1, n2);
        assert rest1 == s[|i1| + 2..] == rest2;
      case _ =>
        assert rest1 == s[1..] == rest2;
    }
  }

  /** A parameter list followed by ')' is recovered from its encoding. */
  lemma {:induction false} ParamCodesUnique(ps1: seq<JType>, ps2: seq<JType>, rest1: string, rest2: string)
    requires ValidTypes(ps1) && ValidTypes(ps2)
    requires ParamCodes(ps1) + ")" + rest1 == ParamCodes(ps2) + ")" + rest2
    ensures ps1 == ps2 && rest1 == rest2
  {
    ParamListEnds(ps1, rest1);
    ParamListEnds(ps2, rest2);
    if ps1 == [] {
      assert ps2 == [];
      assert rest1 == (ParamCodes(ps1) + ")" + rest1)[1..] == rest2;
    } else {
      assert ps2 != [];
      var tail1, tail2 := ParamCodes(ps1[1..]) + ")" + rest1, ParamCodes(ps2[1..]) + ")" + rest2;
      assert ParamCodes(ps1) + ")" + rest1 == TypeCode(ps1[0]) + tail1;
      assert ParamCodes(ps2) + ")" + rest2 == TypeCode(ps2[0]) + tail2;
      assert ValidType(ps1[0]) && ValidType(ps2[0]);
      TypeCodePrefixFree(ps1[0], ps2[0], tail1, tail2);
      assert ValidTypes(ps1[1..]) && ValidTypes(ps2[1..]);
      ParamCodesUnique(ps1[1..], ps2[1..], rest1, rest2);
      assert ps1 == [ps1[0]] + ps1[1..] && ps2 == [ps2[0]] + ps2[1..];
    }
  }

  /** A method name is split off its descriptor at the first '('. */
  lemma NameSplit(n1: string, n2: string, tail1: string, tail2: string)
    requires ValidMethodName(n1) && ValidMethodName(n2)
    requires n1 + ['('] + tail1 == n2 + ['('] + tail2
    ensures n1 == n2 && tail1 == tail2
  {
    var s := n1 + ['('] + tail1;
    FirstIndexAfter(n1, '(', tail1);
    FirstIndexAfter(n2, '(', tail2);
    assert n1 == s[..|n1|] == n2;
    assert tail1 == s[|n1| + 1..] == tail2;
  }

  /** Parameter list and return type are recovered from the signature part. */
  lemma SignatureUnique(ps1: seq<JType>, r1: JType, ps2: seq<JType>, r2: JType)
    requires ValidTypes(ps1) && ValidTypes(ps2) && ValidType(r1) && ValidType(r2)
    requires Signature(ps1, r1) == Signature(ps2, r2)
    ensures ps1 == ps2 && r1 == r2
  {
    ParamCodesUnique(ps1, ps2, TypeCode(r1), TypeCode(r2));
    assert TypeCode(r1) + "" == TypeCode(r2) + "";
    TypeCodePrefixFree(r1, r2, "", "");
  }

  /**
   * Two methods get the same descriptor key exactly when their names,
   * parameter lists and return types are all equal.
   */
  lemma MethodDescriptorInjective(n1: string, ps1: seq<JType>, r1: JType, n2: string, ps2: seq<JType>, r2: JType)
    requires ValidMethodName(n1) && ValidMethodName(n2)
    requires ValidTypes(ps1) && ValidTypes(ps2) && ValidType(r1) && ValidType(r2)
    ensures MethodDescriptor(n1, ps1, r1) == MethodDescriptor(n2, ps2, r2)
        <==> n1 == n2 && ps1 == ps2 && r1 == r2
  {
    if MethodDescriptor(n1, ps1, r1) == MethodDescriptor(n2, ps2, r2) {
      NameSplit(n1, n2, Signature(ps1, r1), Signature(ps2, r2));
      SignatureUnique(ps1, r1, ps2, r2);
    }
  }

  /**
   * Methods that share a name get the same key exactly when their parameter
   * lists and return types are equal, whatever characters the name holds.
   */
  lemma SameNameDescriptorInjective(n: string, ps1: seq<JType>, r1: JType, ps2: seq<JType>, r2: JType)
    requires ValidTypes(ps1) && ValidTypes(ps2) && ValidType(r1) && ValidType(r2)
    ensures MethodDescriptor(n, ps1, r1) == MethodDescriptor(n, ps2, r2) <==> ps1 == ps2 && r1 == r2
  {
    if MethodDescriptor(n, ps1, r1) == MethodDescriptor(n, ps2, r2) {
      var p := n + "(";
      assert (p + Signature(ps1, r1))[|p|..] == Signature(ps1, r1);
      assert (p + Signature(ps2, r2))[|p|..] == Signature(ps2, r2);
      SignatureUnique(ps1, r1, ps2, r2);
    }
  }

  /**
   * Without the restriction on method names the key is ambiguous: a method
   * `m(La` taking a `w` and a method `m` taking an `a(Lw` both get the key
   * `m(La(Lw;)V`, although the class names involved contain no ';' or '/'.
   */
  lemma ParenInNameCollides()
    ensures ValidType(Ref("w")) && ValidType(Ref("a(Lw")) && !ValidMethodName("m(La")
    ensures MethodDescriptor("m(La", [Ref("w")], Void) == MethodDescriptor("m", [Ref("a(Lw")], Void)
  {
    SingleParamCode(Ref("w"));
    SingleParamCode(Ref("a(Lw"));
    assert InternalName("w") == "w";
    assert InternalName("a(Lw") == "a(Lw";
    assert "m(La"[1] == '(';
    assert MethodDescriptor("m(La", [Ref("w")], Void) == "m(La" + "(" + ("L" + "w" + ";") + ")" + "V";
    assert MethodDescriptor("m", [Ref("a(Lw")], Void) == "m" + "(" + ("L" + "a(Lw" + ";") + ")" + "V";
  }

  /** `String` is encoded as `Ljava/lang/String;`. */
  lemma StringTypeCode()
    ensures TypeCode(Ref("java.lang.String")) == "Ljava/lang/String;"
  {
    StringInternalName();
    assert TypeCode(Ref("java.lang.String")) == "L" + "java/lang/String" + ";";
  }

  lemma StringInternalName()
    ensures InternalName("java.lang.String") == "java/lang/String"
  {
  }

  /** `String greet(String)` has the key `greet(Ljava/lang/String;)Ljava/lang/String;`. */
  lemma GreetDescriptor()
    ensures MethodDescriptor("greet", [Ref("java.lang.String")], Ref("java.lang.String"))
         == "greet" + "(" + "Ljava/lang/String;" + ")" + "Ljava/lang/String;"
  {
    StringTypeCode();
    SingleParamCode(Ref("java.lang.String"));
  }

  lemma SingleParamCode(t: JType)
    ensures ParamCodes([t]) == TypeCode(t)
  {
    assert ParamCodes([t]) == TypeCode(t) + ParamCodes([]);
  }

  /** The part of `StringBuilder` the descriptor code uses. */
  class StringBuilder {
    var contents: string

    constructor ()
      ensures contents == []
    {
      contents := [];
    }

    method Append(s: string)
      modifies this
      ensures contents == old(contents) + s
    {
      contents := contents + s;
    }
  }

  /** `appendType`: appends the field descriptor of `t` to `sb`. */
  method AppendType(sb: StringBuilder, t: JType)
    modifies sb
    ensures sb.contents == old(sb.contents) + TypeCode(t)
    decreases t
  {
    match t {
      case Void => sb.Append("V");
      case Boolean => sb.Append("Z");
      case Byte => sb.Append("B");
      case Char => sb.Append("C");
      case Short => sb.Append("S");
      case Int => sb.Append("I");
      case Long => sb.Append("J");
      case Float => sb.Append("F");
      case Double => sb.Append("D");
      case Array(c) =>
        sb.Append("[");
        AppendType(sb, c);
      case Ref(n) =>
        sb.Append("L");
        sb.Append(InternalName(n));
        sb.Append(";");
    }
  }

  /** The buffer after the name, '(' and the first `i` parameter codes. */
  lemma {:induction false} OpeningStep(name: string, ps: seq<JType>, i: nat)
    requires i < |ps|
    ensures name + "(" + ParamCodes(ps[..i]) + TypeCode(ps[i]) == name + "(" + ParamCodes(ps[..i + 1])
  {
    assert ps[..i + 1] == ps[..i] + [ps[i]];
    ParamCodesSnoc(ps[..i], ps[i]);
  }

  lemma {:induction false} ClosingStep(name: string, ps: seq<JType>, ret: JType)
    ensures name + "(" + ParamCodes(ps[..|ps|]) + ")" + TypeCode(ret) == MethodDescriptor(name, ps, ret)
  {
    assert ps[..|ps|] == ps;
  }

  /** `getDescriptor`: builds the descriptor key of `m` in a fresh buffer. */
  method GetDescriptor(m: JMethod) returns (d: string)
    ensures d == MethodDescriptor(m.name, m.params, m.returnType)
  {
    var sb := new StringBuilder();
    sb.Append(m.name);
    sb.Append("(");
    for i := 0 to |m.params|
      invariant sb.contents == m.name + "(" + ParamCodes(m.params[..i])
    {
      AppendType(sb, m.params[i]);
      OpeningStep(m.name, m.params, i);
    }
    sb.Append(")");
    AppendType(sb, m.returnType);
    ClosingStep(m.name, m.params, m.returnType);
    d := sb.contents;
  }
}
