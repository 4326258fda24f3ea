/** The process's main loop, reduced to whether it is still running. */
module EventLoop {

  class MainLoop {
    var running: bool

    constructor ()
      ensures !running
    {
      running := false;
    }

    /** `mainloop.run()`. */
    method Run()
      modifies this
      ensures running
    {
      running := true;
    }

    /** `mainloop.quit()`. */
    method Quit()
      modifies this
      ensures !running
    {
      running := false;
    }
  }
}
