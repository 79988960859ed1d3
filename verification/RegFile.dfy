/**
 reg_file.sv: 32 registers written at the clock edge, read through a bypass.
 */
module RegFile {
  import opened Words
  import opened Datapath

  class RegisterFile {
    const rf: array<Word>

    ghost predicate Valid() {
      rf.Length == 32
    }

    ghost function Contents(): Regs
      requires Valid()
      reads rf
    {
      rf[..]
    }

    /** The reset loop. */
    constructor ()
      ensures Valid() && fresh(rf) && Contents() == seq(32, _ => 0)
    {
      rf := new Word[32];
      new;
      for i := 0 to 32
        invariant forall k :: 0 <= k < i ==> rf[k] == 0
      {
        rf[i] := 0;
      }
    }

    /** A read port. It shows the value the register will hold once this cycle's
        write is done, so a reader never sees a value one cycle old. */
    method Read(regWrite: bool, rd: RegIdx, writeData: Word, rs: RegIdx) returns (data: Word)
      requires Valid()
      ensures data == ReadReg(if regWrite then WriteReg(Contents(), rd, writeData) else Contents(), rs)
    {
      if rs == 0 {
        data := 0;
      } else if regWrite && rd == rs {
        data := writeData;
      } else {
        data := rf[rs];
      }
    }

    method Clock(regWrite: bool, rd: RegIdx, writeData: Word)
      requires Valid()
      modifies rf
      ensures Contents() == if regWrite then WriteReg(old(Contents()), rd, writeData) else old(Contents())
    {
      if regWrite && rd != 0 {
        rf[rd] := writeData;
      }
    }
  }
}
