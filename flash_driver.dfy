/**
 * The flash driver of tftp_loader_sim/flash_driver.c: three statics (the
 * open file, a running CRC-32 and a byte count) updated by `flash_open_file`,
 * `flash_write` and `flash_close`.
 *
 * Whether `fopen` succeeds is the parameter `canOpen`. The file's content
 * is `written`, the bytes written since it was last opened.
 */
module FlashDriver {
  import opened Bytes
  import opened Crc

  class Flash {
    /** `fout != NULL`. */
    var isOpen: bool
    var written: seq<byte>
    var crc: u32
    /** `total_bytes`, without the wrap-around of a C `int`. */
    var totalBytes: int
    /** `crc32` of crc32.c, which the constructor installs. */
    const checksum: Checksum

    /** The accumulator agrees with the bytes written: `total_bytes` counts
      * them and `crc` is their checksum. */
    ghost predicate Valid()
      reads this
    {
      Incremental(checksum) && totalBytes == |written| && crc == checksum(0, written)
    }

    /** The statics' initial values. */
    constructor ()
      ensures Valid() && checksum == Crc32
      ensures !isOpen && written == [] && crc == 0 && totalBytes == 0
    {
      isOpen := false;
      written := [];
      crc := 0;
      totalBytes := 0;
      checksum := Crc32;
      new;
      Crc32Incremental();
    }

    /** `flash_open_file`: the count and the checksum restart from zero
      * whether or not the file could be created. */
    method OpenFile(canOpen: bool)
      requires Incremental(checksum)
      modifies this
      ensures Valid()
      ensures isOpen == canOpen && written == [] && crc == 0 && totalBytes == 0
    {
      isOpen := canOpen;
      written := [];
      crc := 0;
      totalBytes := 0;
    }

    /** `flash_write(data, len(data))`: ignored with no open file; otherwise
      * the bytes are appended, counted and folded into the checksum. */
    method Write(data: seq<byte>)
      requires Valid()
      modifies this
      ensures Valid() && isOpen == old(isOpen)
      ensures !isOpen ==> written == old(written) && crc == old(crc) && totalBytes == old(totalBytes)
      ensures isOpen ==> written == old(written) + data && crc == checksum(old(crc), data)
                         && totalBytes == old(totalBytes) + |data|
    {
      if !isOpen {
        return;
      }
      written := written + data;
      crc := checksum(crc, data);
      totalBytes := totalBytes + |data|;
    }

    /** `flash_close`: closes an open file and otherwise does nothing; the
      * count and the checksum stay as they are. */
    method Close()
      requires Valid()
      modifies this
      ensures Valid() && !isOpen
      ensures written == old(written) && crc == old(crc) && totalBytes == old(totalBytes)
    {
      if isOpen {
        isOpen := false;
      }
    }
  }
}
