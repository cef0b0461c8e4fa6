/** The engine exists twice, as the Go backend and as the FastAPI backend;
    members that differ between the two take the implementation as a value. */
module Dialects {
  datatype Dialect = Go | Python
}
