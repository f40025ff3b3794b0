/**
 * The default channel memory of radioNano (radioNano.h): two parallel constant tables of
 * 150 entries, a frequency in hertz and a mode code, laid out bank-major as 3 banks of 50
 * channels.  A frequency of 0 marks an unprogrammed slot.
 */
module ChannelTable {
  import opened Wrappers
  import opened Word

  const Banks: nat := 3
  const ChannelsPerBank: nat := 50
  const Slots: nat := 150

  /** Mode codes: 0 = CW-L, 1 = CW-U, 2 = LSB, 3 = USB, 4 = AM. */
  datatype Mode = CwL | CwU | Lsb | Usb | Am

  datatype Channel = Channel(freq: int, mode: Mode)

  function ModeCode(m: Mode): (c: nat)
    ensures c <= 4
  {
    match m
    case CwL => 0
    case CwU => 1
    case Lsb => 2
    case Usb => 3
    case Am => 4
  }

  /** The mode a stored code stands for; codes above 4 stand for none. */
  function DecodeMode(c: nat): (m: Option<Mode>)
    ensures m.Some? <==> c <= 4
    ensures m.Some? ==> ModeCode(m.value) == c
  {
    if c == 0 then Some(CwL) else if c == 1 then Some(CwU) else if c == 2 then Some(Lsb)
    else if c == 3 then Some(Usb) else if c == 4 then Some(Am) else None
  }

  lemma ModeCodeRoundTrip(m: Mode, c: nat)
    ensures DecodeMode(ModeCode(m)) == Some(m)
    ensures c <= 4 ==> ModeCode(DecodeMode(c).value) == c
  {
  }

  // Each bank is written as channels 1-25 followed by channels 26-50.

  /** Bank 1: amateur-radio channels (5-9 are the five 60 m channels, 23 is CB AM); 26-50 unprogrammed. */
  const Bank1Freq: seq<int> :=
    [ 1825000, 1925000, 3525000, 3800000, 5330500,
      5346500, 5366500, 5371500, 5403500, 7035000,
      7240000, 10110000, 14035000, 14275000, 18085000,
      18125000, 21040000, 21300000, 24900000, 24950000,
      28035000, 28350000, 27125000, 27385000, 27500000 ]
  + [ 0, 0, 0, 0, 0,
      0, 0, 0, 0, 0,
      0, 0, 0, 0, 0,
      0, 0, 0, 0, 0,
      0, 0, 0, 0, 0 ]

  /** Bank 2: utility channels: WWV 5/10/15 MHz (1-3), CHU (4-6), VOLMET (7-29), USCG (30-40), HFGCS (41-43), marine, ATC, MARS, Canadian HF (44-50). */
  const Bank2Freq: seq<int> :=
    [ 5000000, 10000000, 15000000, 3330000, 7850000,
      14670000, 3485000, 6604000, 10051000, 13270000,
      6754000, 15034000, 3413000, 5505000, 8957000,
      13270000, 5450000, 11253000, 4742000, 11247000,
      6679000, 8828000, 13282000, 6676000, 11387000 ]
  + [ 3458000, 5673000, 8849000, 13285000, 4426000,
      6501000, 8764000, 13089000, 4316000, 8502000,
      12788000, 4125000, 6215000, 8291000, 12290000,
      8992000, 11175000, 6739000, 8152000, 11330000,
      11396000, 11309000, 13306000, 13927000, 11232000 ]

  /** Bank 3: broadcast channels; only channel 1 is programmed. */
  const Bank3Freq: seq<int> :=
    [ 6000000, 0, 0, 0, 0,
      0, 0, 0, 0, 0,
      0, 0, 0, 0, 0,
      0, 0, 0, 0, 0,
      0, 0, 0, 0, 0 ]
  + [ 0, 0, 0, 0, 0,
      0, 0, 0, 0, 0,
      0, 0, 0, 0, 0,
      0, 0, 0, 0, 0,
      0, 0, 0, 0, 0 ]

  /** The frequency table in hertz, bank-major. */
  const DefaultFreq: seq<int> := Bank1Freq + Bank2Freq + Bank3Freq

  const Bank1Mode: seq<nat> :=
    [ 0, 0, 0, 2, 3,
      3, 3, 3, 3, 0,
      2, 0, 0, 3, 0,
      3, 0, 3, 0, 3,
      0, 3, 4, 3, 3 ]
  + [ 3, 3, 3, 3, 3,
      3, 3, 3, 3, 3,
      3, 3, 3, 3, 3,
      3, 3, 3, 3, 3,
      3, 3, 3, 3, 3 ]

  const Bank2Mode: seq<nat> :=
    [ 4, 4, 4, 3, 3,
      3, 3, 3, 3, 3,
      3, 3, 3, 3, 3,
      3, 3, 3, 3, 3,
      3, 3, 3, 3, 3 ]
  + [ 3, 3, 3, 3, 3,
      3, 3, 3, 3, 3,
      3, 3, 3, 3, 3,
      3, 3, 3, 3, 3,
      3, 3, 3, 3, 3 ]

  const Bank3Mode: seq<nat> :=
    [ 4, 4, 4, 4, 4,
      4, 4, 4, 4, 4,
      4, 4, 4, 4, 4,
      4, 4, 4, 4, 4,
      4, 4, 4, 4, 4 ]
  + [ 4, 4, 4, 4, 4,
      4, 4, 4, 4, 4,
      4, 4, 4, 4, 4,
      4, 4, 4, 4, 4,
      4, 4, 4, 4, 4 ]

  /** The mode-code table, parallel to DefaultFreq. */
  const DefaultMode: seq<nat> := Bank1Mode + Bank2Mode + Bank3Mode

  /** A (bank, channel) pair names a slot when both are in range (both count from 1). */
  predicate IsSlot(bank: int, chan: int) {
    1 <= bank <= Banks && 1 <= chan <= ChannelsPerBank
  }

  /** Linear index of a slot: bank-major, 50 channels per bank. */
  function SlotIndex(bank: int, chan: int): (i: nat)
    requires IsSlot(bank, chan)
    ensures i < Slots
    ensures i / ChannelsPerBank == bank - 1 && i % ChannelsPerBank == chan - 1
  {
    ChannelsPerBank * (bank - 1) + (chan - 1)
  }

  /** Bank and channel of a linear index: the inverse of SlotIndex. */
  function SlotOf(i: nat): (bc: (int, int))
    requires i < Slots
    ensures IsSlot(bc.0, bc.1)
    ensures SlotIndex(bc.0, bc.1) == i
  {
    (i / ChannelsPerBank + 1, i % ChannelsPerBank + 1)
  }

  /** The bank of index `i` is read off its range: 0..49, 50..99 or 100..149. */
  lemma SlotOfByBank(i: nat)
    requires i < Slots
    ensures i < 50 ==> SlotOf(i) == (1, i + 1)
    ensures 50 <= i < 100 ==> SlotOf(i) == (2, i - 49)
    ensures 100 <= i ==> SlotOf(i) == (3, i - 99)
  {
  }

  /** SlotIndex and SlotOf are inverse bijections between slots and indices 0..149. */
  lemma SlotRoundTrip(bank: int, chan: int)
    requires IsSlot(bank, chan)
    ensures SlotOf(SlotIndex(bank, chan)) == (bank, chan)
  {
  }

  lemma SlotIndexInjective(b1: int, c1: int, b2: int, c2: int)
    requires IsSlot(b1, c1) && IsSlot(b2, c2)
    ensures SlotIndex(b1, c1) == SlotIndex(b2, c2) ==> b1 == b2 && c1 == c2
  {
    SlotRoundTrip(b1, c1);
    SlotRoundTrip(b2, c2);
  }

  /** Both tables have exactly 150 entries, 50 per bank. */
  lemma TableSizes()
    ensures |Bank1Freq| == |Bank2Freq| == |Bank3Freq| == ChannelsPerBank
    ensures |Bank1Mode| == |Bank2Mode| == |Bank3Mode| == ChannelsPerBank
    ensures |DefaultFreq| == |DefaultMode| == Slots == Banks * ChannelsPerBank
  {
  }

  /** The 50 frequencies of one bank. */
  function BankFreq(bank: int): (s: seq<int>)
    requires 1 <= bank <= Banks
    ensures |s| == ChannelsPerBank
  {
    if bank == 1 then Bank1Freq else if bank == 2 then Bank2Freq else Bank3Freq
  }

  /** The 50 mode codes of one bank. */
  function BankMode(bank: int): (s: seq<nat>)
    requires 1 <= bank <= Banks
    ensures |s| == ChannelsPerBank
  {
    if bank == 1 then Bank1Mode else if bank == 2 then Bank2Mode else Bank3Mode
  }

  /**
   * The channel stored at (bank, chan): the frequency and the decoded mode of channel
   * `chan` of bank `bank`, or None outside the table (or for a code that names no mode,
   * which LookupTotal shows never happens).  LookupCoversTables shows that this is entry
   * SlotIndex(bank, chan) of the two 150-entry tables.
   */
  function Lookup(bank: int, chan: int): (r: Option<Channel>)
    ensures r.Some? ==> IsSlot(bank, chan)
    ensures r.Some? ==> ModeCode(r.value.mode) == BankMode(bank)[chan - 1]
  {
    if !IsSlot(bank, chan) then None
    else
      match DecodeMode(BankMode(bank)[chan - 1])
      case Some(m) => Some(Channel(BankFreq(bank)[chan - 1], m))
      case None => None
  }

  // Facts about one bank of one table at a time; each literal half is small enough to index symbolically.

  lemma Bank1FreqFacts(c: nat)
    requires c < ChannelsPerBank
    ensures 0 <= Bank1Freq[c] <= Max
    ensures Bank1Freq[c] == 0 <==> c >= 25
  {
  }

  lemma Bank2FreqFacts(c: nat)
    requires c < ChannelsPerBank
    ensures 0 < Bank2Freq[c] <= Max
  {
  }

  lemma Bank3FreqFacts(c: nat)
    requires c < ChannelsPerBank
    ensures 0 <= Bank3Freq[c] <= Max
    ensures Bank3Freq[c] == 0 <==> c != 0
  {
  }

  lemma Bank1ModeFacts(c: nat)
    requires c < ChannelsPerBank
    ensures Bank1Mode[c] <= 4
  {
  }

  lemma Bank2ModeFacts(c: nat)
    requires c < ChannelsPerBank
    ensures Bank2Mode[c] == if c < 3 then 4 else 3
  {
  }

  lemma Bank3ModeFacts(c: nat)
    requires c < ChannelsPerBank
    ensures Bank3Mode[c] == 4
  {
  }

  /** Entry `c` of bank `b` is entry `50 * (b - 1) + c` of the whole tables. */
  lemma FreqOfBank1(c: nat)
    requires c < ChannelsPerBank
    ensures DefaultFreq[c] == Bank1Freq[c]
  {
    TableSizes();
  }

  lemma FreqOfBank2(c: nat)
    requires c < ChannelsPerBank
    ensures DefaultFreq[50 + c] == Bank2Freq[c]
  {
    TableSizes();
    var front := Bank1Freq + Bank2Freq;
    assert DefaultFreq[50 + c] == front[50 + c];
  }

  lemma FreqOfBank3(c: nat)
    requires c < ChannelsPerBank
    ensures DefaultFreq[100 + c] == Bank3Freq[c]
  {
    TableSizes();
  }

  lemma ModeOfBank1(c: nat)
    requires c < ChannelsPerBank
    ensures DefaultMode[c] == Bank1Mode[c]
  {
    TableSizes();
  }

  lemma ModeOfBank2(c: nat)
    requires c < ChannelsPerBank
    ensures DefaultMode[50 + c] == Bank2Mode[c]
  {
    TableSizes();
    var front := Bank1Mode + Bank2Mode;
    assert DefaultMode[50 + c] == front[50 + c];
  }

  lemma ModeOfBank3(c: nat)
    requires c < ChannelsPerBank
    ensures DefaultMode[100 + c] == Bank3Mode[c]
  {
    TableSizes();
  }

  /**
   * Every mode code is 0..4, every frequency a non-negative value that fits a 32-bit `long`,
   * a slot is unprogrammed (frequency 0) exactly in bank 1 from channel 26 and bank 3 from
   * channel 2, and every bank-3 slot is AM.
   */
  lemma TablesWellFormed(i: nat)
    requires i < Slots
    ensures DefaultMode[i] <= 4
    ensures 0 <= DefaultFreq[i] <= Max
    ensures DefaultFreq[i] == 0 <==> (25 <= i < 50) || (101 <= i)
    ensures i >= 100 ==> DefaultMode[i] == 4
  {
    if i < 50 {
      FreqOfBank1(i);
      ModeOfBank1(i);
      Bank1FreqFacts(i);
      Bank1ModeFacts(i);
    } else if i < 100 {
      FreqOfBank2(i - 50);
      ModeOfBank2(i - 50);
      Bank2FreqFacts(i - 50);
      Bank2ModeFacts(i - 50);
    } else {
      FreqOfBank3(i - 100);
      ModeOfBank3(i - 100);
      Bank3FreqFacts(i - 100);
      Bank3ModeFacts(i - 100);
    }
  }

  /**
   * Every slot holds a channel: a non-negative int32 frequency, zero exactly at bank 1
   * channels 26-50 and bank 3 channels 2-50, and a valid mode, AM throughout bank 3.
   */
  lemma LookupTotal(bank: int, chan: int)
    requires IsSlot(bank, chan)
    ensures Lookup(bank, chan).Some?
    ensures 0 <= Lookup(bank, chan).value.freq <= Max
    ensures Lookup(bank, chan).value.freq == 0 <==> (bank == 1 && chan > 25) || (bank == 3 && chan > 1)
    ensures bank == 3 ==> Lookup(bank, chan).value.mode == Am
  {
    var c := chan - 1;
    if bank == 1 {
      Bank1FreqFacts(c);
      Bank1ModeFacts(c);
    } else if bank == 2 {
      Bank2FreqFacts(c);
      Bank2ModeFacts(c);
    } else {
      Bank3FreqFacts(c);
      Bank3ModeFacts(c);
    }
  }

  /** The entries the source's comments label: "chan 01, bank 01", "ch 01, bank 02" (51st), "chan 01, bank 03" (101st), ... */
  lemma LabelledEntries()
    ensures Lookup(1, 1) == Some(Channel(1825000, CwL))
    ensures Lookup(1, 12) == Some(Channel(10110000, CwL))
    ensures Lookup(1, 14) == Some(Channel(14275000, Usb))
    ensures Lookup(1, 23) == Some(Channel(27125000, Am))
    ensures Lookup(1, 25) == Some(Channel(27500000, Usb))
    ensures SlotIndex(2, 1) == 50 && SlotIndex(2, 50) == 99
    ensures Lookup(2, 50) == Some(Channel(11232000, Usb))
    ensures SlotIndex(3, 1) == 100 && Lookup(3, 1) == Some(Channel(6000000, Am))
  {
  }

  /** The WWV channels: bank 2, channels 1-3, at 5, 10 and 15 MHz, all AM. */
  lemma WwvChannels()
    ensures Lookup(2, 1) == Some(Channel(5000000, Am))
    ensures Lookup(2, 2) == Some(Channel(10000000, Am))
    ensures Lookup(2, 3) == Some(Channel(15000000, Am))
  {
  }

  /** The five 60 m channels: bank 1, channels 5-9, between 5330500 and 5403500 Hz, all USB. */
  lemma SixtyMetreChannels(chan: int)
    requires 5 <= chan <= 9
    ensures Lookup(1, chan).Some?
    ensures 5330500 <= Lookup(1, chan).value.freq <= 5403500
    ensures Lookup(1, chan).value.mode == Usb
  {
    SixtyMetreEntries(chan - 1);
  }

  lemma SixtyMetreEntries(c: nat)
    requires 4 <= c <= 8
    ensures 5330500 <= Bank1Freq[c] <= 5403500 && Bank1Mode[c] == 3
  {
  }

  /** Bank 2: the three WWV channels are AM, every other utility channel (CHU, VOLMET, USCG, ATC, ...) USB. */
  lemma UtilityBankModes(chan: int)
    requires 1 <= chan <= ChannelsPerBank
    ensures Lookup(2, chan).Some?
    ensures Lookup(2, chan).value.mode == if chan <= 3 then Am else Usb
  {
    Bank2ModeFacts(chan - 1);
  }

  /**
   * The amateur bank follows the sideband convention: a programmed sideband channel outside
   * the 60 m band is LSB below 10 MHz and USB above; the 60 m channels are USB.
   */
  lemma AmateurSidebandConvention(chan: int)
    requires 1 <= chan <= ChannelsPerBank
    requires Lookup(1, chan).Some? && Lookup(1, chan).value.freq != 0
    requires Lookup(1, chan).value.mode == Lsb || Lookup(1, chan).value.mode == Usb
    ensures 5330500 <= Lookup(1, chan).value.freq <= 5403500 ==> Lookup(1, chan).value.mode == Usb
    ensures !(5330500 <= Lookup(1, chan).value.freq <= 5403500) ==>
              (Lookup(1, chan).value.mode == Lsb <==> Lookup(1, chan).value.freq < 10000000)
  {
    Bank1FreqFacts(chan - 1);
    ProgrammedBank1Sidebands(chan - 1);
  }

  lemma ProgrammedBank1Sidebands(c: nat)
    requires c < 25
    requires Bank1Mode[c] == 2 || Bank1Mode[c] == 3
    ensures 5330500 <= Bank1Freq[c] <= 5403500 ==> Bank1Mode[c] == 3
    ensures !(5330500 <= Bank1Freq[c] <= 5403500) ==> (Bank1Mode[c] == 2 <==> Bank1Freq[c] < 10000000)
  {
  }

  /** One bank at a time: the lookup of the slot at flat index `i` gives entry `i` of both tables. */
  lemma LookupCoversBank1(i: nat)
    requires i < 50
    ensures Lookup(1, i + 1).Some?
    ensures Lookup(1, i + 1).value.freq == DefaultFreq[i]
    ensures ModeCode(Lookup(1, i + 1).value.mode) == DefaultMode[i]
  {
    LookupTotal(1, i + 1);
    FreqOfBank1(i);
    ModeOfBank1(i);
  }

  lemma LookupCoversBank2(i: nat)
    requires 50 <= i < 100
    ensures Lookup(2, i - 49).Some?
    ensures Lookup(2, i - 49).value.freq == DefaultFreq[i]
    ensures ModeCode(Lookup(2, i - 49).value.mode) == DefaultMode[i]
  {
    LookupTotal(2, i - 49);
    FreqOfBank2(i - 50);
    ModeOfBank2(i - 50);
  }

  lemma LookupCoversBank3(i: nat)
    requires 100 <= i < Slots
    ensures Lookup(3, i - 99).Some?
    ensures Lookup(3, i - 99).value.freq == DefaultFreq[i]
    ensures ModeCode(Lookup(3, i - 99).value.mode) == DefaultMode[i]
  {
    LookupTotal(3, i - 99);
    FreqOfBank3(i - 100);
    ModeOfBank3(i - 100);
  }

  /** Every entry of the two flat tables is what Lookup returns for its (bank, channel). */
  lemma LookupCoversTables(i: nat)
    requires i < Slots
    ensures Lookup(SlotOf(i).0, SlotOf(i).1).Some?
    ensures Lookup(SlotOf(i).0, SlotOf(i).1).value.freq == DefaultFreq[i]
    ensures ModeCode(Lookup(SlotOf(i).0, SlotOf(i).1).value.mode) == DefaultMode[i]
  {
    SlotOfByBank(i);
    if i < 50 {
      LookupCoversBank1(i);
    } else if i < 100 {
      LookupCoversBank2(i);
    } else {
      LookupCoversBank3(i);
    }
  }
}
