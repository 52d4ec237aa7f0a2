// Lesson 9-2's receive side: the interrupt leaves the latest byte in a
// one-byte cache and raises a flag that the main loop reads and clears.
// Its transmit helpers are the ones of lesson 9-1, modelled in SerialTx.

module SerialMailbox {

  class Mailbox {
    /** Serial_RxData: the most recently received byte. */
    var rxData: bv8
    /** Serial_RxFlag: 1 while a received byte has not been reported. */
    var rxFlag: bv8

    /** Both globals start cleared, as C statics do. */
    constructor ()
      ensures rxData == 0 && rxFlag == 0
    {
      rxData, rxFlag := 0, 0;
    }

    /** USART1_IRQHandler: with RXNE set, cache the byte and raise the flag. */
    method Interrupt(rxne: bool, data: bv8)
      modifies this
      ensures rxne ==> rxData == data && rxFlag == 1
      ensures !rxne ==> rxData == old(rxData) && rxFlag == old(rxFlag)
    {
      if rxne {
        rxData := data;
        rxFlag := 1;
      }
    }

    /** Serial_GetRxFlag: report 1 and clear the flag when it is 1, otherwise report 0. */
    method GetRxFlag() returns (r: bv8)
      modifies this
      ensures old(rxFlag) == 1 ==> r == 1 && rxFlag == 0
      ensures old(rxFlag) != 1 ==> r == 0 && rxFlag == old(rxFlag)
      ensures rxData == old(rxData)
    {
      if rxFlag == 1 {
        rxFlag := 0;
        return 1;
      }
      return 0;
    }

    /** Serial_GetRxData: the cached byte; the flag is left alone. */
    method GetRxData() returns (d: bv8)
      ensures d == rxData
    {
      d := rxData;
    }
  }

  /** A byte is reported once: a second GetRxFlag with no reception in between reports 0. */
  method ReportedOnce(m: Mailbox) returns (first: bv8, second: bv8)
    modifies m
    ensures second == 0
    ensures first == 1 <==> old(m.rxFlag) == 1
  {
    first := m.GetRxFlag();
    second := m.GetRxFlag();
  }

  /** Two receptions before the main loop looks: one report, and only the second byte survives. */
  method LatestWins(m: Mailbox, b1: bv8, b2: bv8) returns (flag: bv8, d: bv8)
    modifies m
    ensures flag == 1 && d == b2 && m.rxFlag == 0
  {
    m.Interrupt(true, b1);
    m.Interrupt(true, b2);
    flag := m.GetRxFlag();
    d := m.GetRxData();
  }
}
