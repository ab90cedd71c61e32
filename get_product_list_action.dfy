/**
 * GetProductListAction: an immutable action carrying one Java int, `flags`,
 * with Java's equals / hashCode / toString contract over it.
 */
module GetProductListActions {
  import opened Wrappers
  import JavaInt

  class GetProductListAction {
    /** Set by the constructor only; there is no setter. */
    const flags: JavaInt.Int32

    constructor (flags: JavaInt.Int32)
      ensures GetFlags() == flags
    {
      this.flags := flags;
    }

    /** The protected no-argument constructor used for serialisation: the int
        field keeps Java's default value. */
    constructor Default()
      ensures GetFlags() == 0
    {
      flags := 0;
    }

    function GetFlags(): (r: JavaInt.Int32)
      ensures r == flags
    {
      flags
    }

    /** getServiceName: DEFAULT_SERVICE_NAME of the Action interface (outside this
        model, so a parameter) followed by "GetProductList". */
    function GetServiceName(defaultServiceName: string): (name: string)
      ensures |name| == |defaultServiceName| + 14
      ensures name[..|defaultServiceName|] == defaultServiceName
      ensures name[|defaultServiceName|..] == "GetProductList"
    {
      defaultServiceName + "GetProductList"
    }

    function IsSecured(): (secured: bool)
      ensures !secured
    {
      false
    }

    /** equals(Object): the same object, or another GetProductListAction (of
        exactly this class) with the same flags. */
    function Equals(obj: Object): (r: bool)
      ensures obj == Instance(this) ==> r
      ensures obj.Null? || obj.OtherClass? ==> !r
      ensures obj.Instance? ==> (r <==> flags == obj.action.flags)
    {
      if obj == Instance(this) then true
      else if obj.Null? then false
      else if !obj.Instance? then false
      else flags == obj.action.flags
    }

    /** hashCode: 23 * 37 + Integer.hashCode(flags), in int arithmetic, where
        Integer.hashCode of an int is the int itself. */
    function HashCode(): (h: JavaInt.Int32)
      ensures flags <= 0x7fff_ffff - 851 ==> h == 851 + flags
      ensures flags > 0x7fff_ffff - 851 ==> h == 851 + flags - JavaInt.TWO_32
    {
      var seed: JavaInt.Int32 := 23;
      JavaInt.Wrap(JavaInt.Wrap(seed * 37) + flags)
    }

    /** toString: "GetProductListAction[" followed by the flags in decimal and "]". */
    function ToString(): (s: string)
      ensures |s| > 22 && s[..21] == "GetProductListAction[" && s[|s| - 1] == ']'
      ensures JavaInt.ParseDecimal(s[21..|s| - 1]) == Some(flags as int)
      ensures s[21..|s| - 1] == JavaInt.ToDecimal(flags)
    {
      var s := "GetProductListAction[" + JavaInt.ToDecimal(flags) + "]";
      assert s[21..|s| - 1] == JavaInt.ToDecimal(flags);
      JavaInt.DecimalRoundTrip(flags);
      s
    }
  }

  /** The argument of equals: null, a GetProductListAction, or an object of
      any other class (a subclass included, since equals compares getClass()). */
  datatype Object = Null | Instance(action: GetProductListAction) | OtherClass

  /** Two actions are equal exactly when their flags are equal. */
  lemma EqualsIffSameFlags(a: GetProductListAction, b: GetProductListAction)
    ensures a.Equals(Instance(b)) <==> a.GetFlags() == b.GetFlags()
  {
  }

  lemma EqualsSymmetric(a: GetProductListAction, b: GetProductListAction)
    ensures a.Equals(Instance(b)) == b.Equals(Instance(a))
  {
  }

  lemma EqualsTransitive(a: GetProductListAction, b: GetProductListAction, c: GetProductListAction)
    requires a.Equals(Instance(b)) && b.Equals(Instance(c))
    ensures a.Equals(Instance(c))
  {
  }

  /** Equal actions have equal hash codes, and since adding 851 is a bijection
      on int, unequal ones have unequal hash codes. */
  lemma HashCodeConsistentWithEquals(a: GetProductListAction, b: GetProductListAction)
    ensures a.Equals(Instance(b)) <==> a.HashCode() == b.HashCode()
  {
  }

  /** toString tells actions apart exactly as equals does. */
  lemma ToStringDistinguishesFlags(a: GetProductListAction, b: GetProductListAction)
    ensures a.ToString() == b.ToString() <==> a.Equals(Instance(b))
  {
    if a.ToString() == b.ToString() {
      var s := a.ToString();
      assert JavaInt.ParseDecimal(s[21..|s| - 1]) == Some(a.flags as int);
    }
  }
}
