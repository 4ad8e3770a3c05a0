/** The user-level configuration record and the store that persists it. The TOML
 *  encoding and the file system are not part of this model: the store keeps the
 *  durable record in a field and fails the writes it is told to fail. */
module Configs {
  import opened Errors

  /** config.Config as far as these commands see it: the pull-policy string ("" is
   *  "not set"), the experimental switch, and every other setting, carried along
   *  untouched. */
  datatype Config = Config(pullPolicy: string, experimental: bool, others: map<string, string>)

  class ConfigStore {
    /** What reading the configuration file would give now. */
    var durable: Config
    /** Every record written successfully, oldest first. */
    var written: seq<Config>
    /** How many writes have been attempted. */
    var attempts: nat
    /** The attempts (counted from 0) that fail, and the error each returns. */
    const faults: map<nat, string>

    constructor (initial: Config, faults: map<nat, string>)
      ensures durable == initial && written == [] && attempts == 0
      ensures this.faults == faults
    {
      durable := initial;
      written := [];
      attempts := 0;
      this.faults := faults;
    }

    /** config.Write: either the whole record becomes durable, or the write
     *  fails and the durable record is as it was. */
    method Write(cfg: Config) returns (err: Option<Error>)
      modifies this
      ensures attempts == old(attempts) + 1
      ensures old(attempts) in faults ==>
        err == Some(External(faults[old(attempts)])) && durable == old(durable) && written == old(written)
      ensures old(attempts) !in faults ==>
        err == None && durable == cfg && written == old(written) + [cfg]
    {
      if attempts in faults {
        err := Some(External(faults[attempts]));
      } else {
        err := None;
        durable := cfg;
        written := written + [cfg];
      }
      attempts := attempts + 1;
    }
  }
}
