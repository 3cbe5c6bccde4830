/** The target family a build is compiled for. Both crates select their shell
    tables with `cfg(unix)` / `cfg(windows)`; here the choice is a value. */
module Platform {

  datatype Family = Unix | Windows
}
