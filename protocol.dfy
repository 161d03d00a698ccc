/**
 * The routing-protocol switch in RoutingExperiment::Run: the selector
 * m_protocol names one of four protocols; any other value is fatal.
 */
module Protocol {
  import opened Wrappers
  import opened FixedWidth
  import Decimal

  /** The selector the constructor stores (2 = AODV). */
  const DefaultSelector: U32 := 2

  /** How the routing stack is put on the nodes. */
  datatype Installation =
    | ListRouting  // added to an Ipv4ListRoutingHelper with priority 100, then the internet stack
    | DsrMain      // plain internet stack, then DSR through its own main helper

  datatype Choice = Choice(name: string, installation: Installation)

  /** The switch on m_protocol together with the `m_protocol < 4` / `== 4` installation branch. */
  function Select(selector: U32): (r: Result<Choice, string>)
    ensures r.Success? <==> 1 <= selector <= 4
    ensures r.Failure? ==> r.error == "No such protocol:" + Decimal.IntToString(selector)
    ensures r.Success? ==> (r.value.installation == ListRouting <==> selector < 4)
    ensures selector == 1 ==> r.Success? && r.value.name == "OLSR"
    ensures selector == 2 ==> r.Success? && r.value.name == "AODV"
    ensures selector == 3 ==> r.Success? && r.value.name == "DSDV"
    ensures selector == 4 ==> r.Success? && r.value.name == "DSR"
  {
    match selector
    case 1 => Success(Choice("OLSR", ListRouting))
    case 2 => Success(Choice("AODV", ListRouting))
    case 3 => Success(Choice("DSDV", ListRouting))
    case 4 => Success(Choice("DSR", DsrMain))
    case _ => Failure("No such protocol:" + Decimal.IntToString(selector))
  }

  /** Reference reading of a RoutingProtocol column back to its selector. */
  function SelectorOf(name: string): Option<U32> {
    if name == "OLSR" then Some(1)
    else if name == "AODV" then Some(2)
    else if name == "DSDV" then Some(3)
    else if name == "DSR" then Some(4)
    else None
  }

  /**
   * The protocol name written into every sample row identifies the selector:
   * the names of accepted selectors are exactly the names SelectorOf reads back.
   */
  lemma NameIdentifiesSelector(selector: U32, name: string)
    ensures Select(selector).Success? && Select(selector).value.name == name
            <==> SelectorOf(name) == Some(selector)
  {
  }

  /** The default configuration never reaches the fatal branch, and picks AODV over list routing. */
  lemma DefaultIsAodv()
    ensures Select(DefaultSelector) == Success(Choice("AODV", ListRouting))
  {
  }
}
