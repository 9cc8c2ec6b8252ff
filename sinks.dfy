/** Output targets (io.Writer values) and the rotating-file settings of lumberjack. */
module Sinks {

  /** lumberjack.Logger settings; sizes in megabytes, age in days. */
  datatype Lumberjack = Lumberjack(filename: string, maxSize: int, maxBackups: int, maxAge: int, compress: bool)

  /**
   * An io.Writer. NilWriter is the zero value; Buffer(id) stands for a
   * caller-supplied writer such as a bytes.Buffer.
   */
  datatype Writer =
    | NilWriter
    | Stdout
    | Buffer(id: nat)
    | FileWriter(file: Lumberjack)
    | MultiWriter(writers: seq<Writer>)
    | Console(out: Writer, noColor: bool, timeFormat: string)
}
