/**
  The process-wide `numGPUInstances` counter and the ncnn GPU instance it
  guards, modelled sequentially: the atomicity of the counter is not part
  of this model.
 */
module GpuInstances {

  class Counter {
    var count: int     // numGPUInstances
    var alive: bool    // the ncnn GPU instance exists

    /** The counter's starting state: zero, and no GPU instance. */
    constructor()
      ensures count == 0 && !alive
    {
      count := 0;
      alive := false;
    }

    /** What the counter should mean: it never goes negative, and while it is positive the GPU instance exists. */
    predicate Consistent()
      reads this
    {
      count >= 0 && (count > 0 ==> alive)
    }

    /**
      `ncnn::create_gpu_instance()`, whose failure (a nonzero return) is
      given by `fails`; on success the GPU instance exists.
     */
    method CreateInstance(fails: bool) returns (ok: bool)
      modifies this
      ensures ok == !fails
      ensures alive == (old(alive) || ok) && count == old(count)
    {
      ok := !fails;
      if ok {
        alive := true;
      }
    }

    /** `++numGPUInstances`. */
    method Increment()
      modifies this
      ensures count == old(count) + 1 && alive == old(alive)
    {
      count := count + 1;
    }

    /**
      `if (--numGPUInstances == 0) ncnn::destroy_gpu_instance();`: the GPU
      instance is torn down exactly when the decrement yields zero.
     */
    method Decrement() returns (teardown: bool)
      modifies this
      ensures count == old(count) - 1
      ensures teardown <==> count == 0
      ensures alive == (old(alive) && !teardown)
    {
      count := count - 1;
      teardown := count == 0;
      if teardown {
        alive := false;
      }
    }
  }
}
